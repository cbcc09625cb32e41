/** Reconciling the GlideinSets of a GlideinSetCollection (glideinsetcollection_controller.go). */
module CollectionReconciler {
  import opened Kube
  import opened Names
  import opened GlideinSets

  type Labels = map<string, string>

  // ---------- What a pass is meant to reach ----------

  function WantedKey(c: Collection, s: SetSpec): Key {
    SetKey(c.namespace, NameFor("-" + s.name, c.name))
  }

  /** The spec that is posted: both URLs come from the collection. */
  function Effective(c: Collection, s: SetSpec): SetSpec {
    s.(managerUrl := c.managerUrl,
       collectorUrl := NameFor(COLLECTOR, c.name) + "." + c.namespace + ".svc.cluster.local")
  }

  function Newborn(c: Collection, s: SetSpec): SetObject {
    Object(LabelsForPilotSet(c.name), c.name, {}, false, SetBody(Effective(c, s), None))
  }

  /** The last of `sets` that is meant for `k`. */
  function LastFor(c: Collection, sets: seq<SetSpec>, k: Key): (r: Option<SetSpec>)
    ensures r.Some? ==> r.value in sets && WantedKey(c, r.value) == k
    ensures r.None? ==> forall s :: s in sets ==> WantedKey(c, s) != k
  {
    if sets == [] then None
    else
      var last := sets[|sets| - 1];
      if WantedKey(c, last) == k then Some(last) else LastFor(c, sets[..|sets| - 1], k)
  }

  predicate Wanted(c: Collection, k: Key) {
    LastFor(c, c.sets, k).Some?
  }

  /** A GlideinSet that the listing returns although the collection does not want it. */
  predicate Outdated(c: Collection, selected: Labels -> bool, k: Key, o: SetObject) {
    !Wanted(c, k) && k.kind == KIND && k.namespace == c.namespace && selected(o.labels)
  }

  /** What a settled cluster holds at `k`, given what it held before. */
  function SettledAt(c: Collection, selected: Labels -> bool, st: Objects<SetBody>, k: Key): Option<SetObject> {
    match LastFor(c, c.sets, k)
    case Some(s) => Some(if k in st then WithSpec(st[k], Effective(c, s)) else Newborn(c, s))
    case None =>
      if k !in st then None
      else if Outdated(c, selected, k, st[k]) then AfterDelete(st[k])
      else Some(st[k])
  }

  function WantedKeys(c: Collection): set<Key> {
    set s | s in c.sets :: WantedKey(c, s)
  }

  /** The desired cluster, as a function of the cluster alone. */
  function Settle(c: Collection, selected: Labels -> bool, st: Objects<SetBody>): Objects<SetBody> {
    map k | k in st.Keys + WantedKeys(c) && SettledAt(c, selected, st, k).Some?
      :: SettledAt(c, selected, st, k).value
  }

  const NOTHING: Labels -> bool := l => false

  lemma SettleAt(c: Collection, selected: Labels -> bool, st: Objects<SetBody>, k: Key)
    ensures At(Settle(c, selected, st), k) == SettledAt(c, selected, st, k)
  {
  }

  lemma SameSettling(c: Collection, selected: Labels -> bool, a: Objects<SetBody>, b: Objects<SetBody>)
    requires forall k :: SettledAt(c, selected, a, k) == SettledAt(c, selected, b, k)
    ensures Settle(c, selected, a) == Settle(c, selected, b)
  {
    var x, y := Settle(c, selected, a), Settle(c, selected, b);
    forall k ensures At(x, k) == At(y, k) {
      SettleAt(c, selected, a, k);
      SettleAt(c, selected, b, k);
    }
    SameStore(x, y);
  }

  /** Settling is idempotent: a further pass over a settled cluster has nothing to change. */
  lemma SettleIdempotent(c: Collection, selected: Labels -> bool, st: Objects<SetBody>)
    ensures Settle(c, selected, Settle(c, selected, st)) == Settle(c, selected, st)
  {
    var mid := Settle(c, selected, st);
    forall k ensures SettledAt(c, selected, mid, k) == SettledAt(c, selected, st, k) {
      SettleAt(c, selected, st, k);
    }
    SameSettling(c, selected, mid, st);
  }

  /** `now` is `st` with some of the wanted sets upserted, each with any spec; nothing else differs. */
  ghost predicate Lifted(c: Collection, st: Objects<SetBody>, now: Objects<SetBody>) {
    forall k :: LiftedAt(c, st, now, k)
  }

  ghost predicate LiftedAt(c: Collection, st: Objects<SetBody>, now: Objects<SetBody>, k: Key) {
    match LastFor(c, c.sets, k)
    case None => At(now, k) == At(st, k)
    case Some(s) =>
      if k in st then k in now && WithSpec(now[k], s) == WithSpec(st[k], s)
      else k in now ==> WithSpec(now[k], s) == WithSpec(Newborn(c, s), s)
  }

  /** `now` is `top` with the outdated sets deleted, except those in `todo`. */
  ghost predicate Draining(c: Collection, selected: Labels -> bool, top: Objects<SetBody>, now: Objects<SetBody>,
                           todo: set<Key>) {
    forall k :: At(now, k) ==
      if k in top && Outdated(c, selected, k, top[k]) && k !in todo then AfterDelete(top[k]) else At(top, k)
  }

  /** Upserts done early, twice or with an earlier entry do not change where the pass leads. */
  lemma LiftedSettles(c: Collection, selected: Labels -> bool, st: Objects<SetBody>, now: Objects<SetBody>)
    requires Lifted(c, st, now)
    ensures Settle(c, selected, now) == Settle(c, selected, st)
  {
    forall k ensures SettledAt(c, selected, now, k) == SettledAt(c, selected, st, k) {
      assert LiftedAt(c, st, now, k);
    }
    SameSettling(c, selected, now, st);
  }

  lemma UpsertLifts(c: Collection, st: Objects<SetBody>, now: Objects<SetBody>, next: Objects<SetBody>, s: SetSpec)
    requires Lifted(c, st, now) && s in c.sets
    requires next == Upserted(c, now, s)
    ensures Lifted(c, st, next)
  {
    assert LastFor(c, c.sets, WantedKey(c, s)).Some?;
    forall k ensures LiftedAt(c, st, next, k) {
      assert LiftedAt(c, st, now, k);
    }
  }

  /** Nor do deletions done early. */
  lemma DrainingSettles(c: Collection, selected: Labels -> bool, top: Objects<SetBody>, now: Objects<SetBody>,
                        todo: set<Key>)
    requires Draining(c, selected, top, now, todo)
    ensures Settle(c, selected, now) == Settle(c, selected, top)
  {
    forall k ensures SettledAt(c, selected, now, k) == SettledAt(c, selected, top, k) {
      assert At(now, k) ==
        if k in top && Outdated(c, selected, k, top[k]) && k !in todo then AfterDelete(top[k]) else At(top, k);
    }
    SameSettling(c, selected, now, top);
  }

  function Upserted(c: Collection, st: Objects<SetBody>, s: SetSpec): Objects<SetBody> {
    var k := WantedKey(c, s);
    st[k := if k in st then WithSpec(st[k], Effective(c, s)) else Newborn(c, s)]
  }

  /** The operational reading of "settled": every wanted set is there with its spec, and every
      outdated one is gone or marked. */
  ghost predicate Raised(c: Collection, sets: seq<SetSpec>, st: Objects<SetBody>) {
    forall k :: LastFor(c, sets, k).Some? ==>
      k in st && st[k].body.spec == Effective(c, LastFor(c, sets, k).value)
  }

  ghost predicate Drained(c: Collection, selected: Labels -> bool, st: Objects<SetBody>) {
    forall k :: k in st && Outdated(c, selected, k, st[k]) ==> AfterDelete(st[k]) == Some(st[k])
  }

  lemma SettledExactly(c: Collection, selected: Labels -> bool, st: Objects<SetBody>)
    ensures Settle(c, selected, st) == st <==> Raised(c, c.sets, st) && Drained(c, selected, st)
  {
    var goal := Settle(c, selected, st);
    if goal == st {
      forall k ensures SettledAt(c, selected, st, k) == At(st, k) {
        SettleAt(c, selected, st, k);
      }
    }
    if Raised(c, c.sets, st) && Drained(c, selected, st) {
      forall k ensures At(goal, k) == At(st, k) {
        SettleAt(c, selected, st, k);
      }
      SameStore(goal, st);
    }
  }

  // ---------- Surge before drain ----------

  /** Gone, or under deletion although it was not. */
  predicate Drains(st: Objects<SetBody>, now: Objects<SetBody>, k: Key) {
    k in st && (k !in now || (now[k].deleting && !st[k].deleting))
  }

  /** In `now`, reached from `st` within one pass: no wanted set was lost, and no set at all was lost
      or marked before all wanted ones were there. */
  ghost predicate SurgeFirst(c: Collection, st: Objects<SetBody>, now: Objects<SetBody>) {
    && (forall k :: k in st && Wanted(c, k) ==> k in now)
    && ((exists k :: Drains(st, now, k)) ==> WantedKeys(c) <= now.Keys)
  }

  ghost predicate Surging(c: Collection, st: Objects<SetBody>, trail: seq<Objects<SetBody>>, from: nat) {
    forall i :: from <= i < |trail| ==> SurgeFirst(c, st, trail[i])
  }

  /** Nothing is lost from `a` to `b`, and nothing is marked for deletion. */
  ghost predicate Kept(a: Objects<SetBody>, b: Objects<SetBody>) {
    forall k :: !Drains(a, b, k)
  }

  lemma KeptKeys(a: Objects<SetBody>, b: Objects<SetBody>)
    requires Kept(a, b)
    ensures a.Keys <= b.Keys
  {
    forall k | k in a ensures k in b {
      assert !Drains(a, b, k);
    }
  }

  /** From store `a` with its trail on to store `b` with its trail, all is kept at every moment. */
  ghost predicate Keeping(a: Objects<SetBody>, past: nat, b: Objects<SetBody>, trail: seq<Objects<SetBody>>) {
    Kept(a, b) && forall i :: past <= i < |trail| ==> Kept(a, trail[i])
  }

  lemma KeepingChains(a: Objects<SetBody>, past: nat, b: Objects<SetBody>, middle: seq<Objects<SetBody>>,
                      c: Objects<SetBody>, trail: seq<Objects<SetBody>>)
    requires Keeping(a, past, b, middle) && Keeping(b, |middle|, c, trail) && middle <= trail
    ensures Keeping(a, past, c, trail)
  {
    forall x: Objects<SetBody> | Kept(b, x) ensures Kept(a, x) {
      forall k ensures !Drains(a, x, k) {
        assert !Drains(a, b, k) && !Drains(b, x, k);
      }
    }
    forall i | past <= i < |trail| ensures Kept(a, trail[i]) {
      if i < |middle| {
        assert trail[i] == middle[i];
      }
    }
  }

  ghost predicate AllComplete(c: Collection, trail: seq<Objects<SetBody>>, from: nat) {
    forall i :: from <= i < |trail| ==> WantedKeys(c) <= trail[i].Keys
  }

  /** First everything is kept, and then everything wanted is there. */
  lemma KeepingThenComplete(c: Collection, st: Objects<SetBody>, past: nat, top: Objects<SetBody>,
                            middle: seq<Objects<SetBody>>, trail: seq<Objects<SetBody>>)
    requires Keeping(st, past, top, middle) && middle <= trail && AllComplete(c, trail, |middle|)
    ensures Surging(c, st, trail, past)
  {
    forall i | past <= i < |trail| ensures SurgeFirst(c, st, trail[i]) {
      if i < |middle| {
        assert trail[i] == middle[i];
        KeptKeys(st, trail[i]);
      } else {
        WantedAreThere(c, trail[i]);
      }
    }
  }

  lemma WantedAreThere(c: Collection, now: Objects<SetBody>)
    ensures WantedKeys(c) <= now.Keys <==> forall k :: Wanted(c, k) ==> k in now
  {
    forall k ensures k in WantedKeys(c) <==> Wanted(c, k) {
      if Wanted(c, k) {
        assert LastFor(c, c.sets, k).value in c.sets;
      }
    }
  }

  // ---------- What the calls of a pass are answered ----------

  type Faults = nat -> Fault<SetBody>

  ghost predicate Served(faults: Faults) {
    forall i :: faults(i) == Deliver
  }

  /** The i-th set takes up to four calls: the update's read and post, the look-up before a create, and
      the create. */
  function UpdateRead(faults: Faults, i: nat): Fault<SetBody> {
    faults(4 * i)
  }

  function LookUp(faults: Faults, i: nat): Fault<SetBody> {
    faults(4 * i + 2)
  }

  /** No look-up before a create is answered with an old copy. */
  ghost predicate TrueLookUps(faults: Faults) {
    forall i :: !Recalls(LookUp(faults, i))
  }

  /** And no update is told that a set is missing while it is there. Older copies do no harm there. */
  ghost predicate TrueReads(faults: Faults) {
    TrueLookUps(faults) && forall i :: UpdateRead(faults, i) != Stale(None)
  }

  /** All calls are served, but look-ups before a create may be answered with old copies. */
  ghost predicate Answered(c: Collection, faults: Faults) {
    && (forall i: nat :: faults(i) == Deliver || (i < 4 * |c.sets| && i % 4 == 2 && Recalls(faults(i))))
  }

  // ---------- What successful upserts reach, whatever the reads were ----------

  /** The i-th entry is passed over: the set is there but the update is told it is missing, or it is
      missing but the look-up shows an old copy. */
  predicate PassedOver(c: Collection, faults: Faults, past: set<(Key, Held<SetBody>)>, st: Objects<SetBody>, i: nat)
    requires i < |c.sets|
  {
    var k := WantedKey(c, c.sets[i]);
    if k in st then UpdateRead(faults, i) == Stale(None) else ShowsCopy(past, k, LookUp(faults, i))
  }

  function UpsertStep(c: Collection, faults: Faults, past: set<(Key, Held<SetBody>)>, st: Objects<SetBody>, i: nat)
    : Objects<SetBody>
    requires i < |c.sets|
  {
    if PassedOver(c, faults, past, st, i) then st else Upserted(c, st, c.sets[i])
  }

  /** The store after the first `i` entries, if nobody else writes and no call fails. */
  function Climb(c: Collection, faults: Faults, past: set<(Key, Held<SetBody>)>, st: Objects<SetBody>, i: nat)
    : Objects<SetBody>
    requires i <= |c.sets|
  {
    if i == 0 then st else UpsertStep(c, faults, past, Climb(c, faults, past, st, i - 1), i - 1)
  }

  /** For each wanted set that is missing, some look-up before its create tells the truth. */
  ghost predicate NoneMissed(c: Collection, faults: Faults, past: set<(Key, Held<SetBody>)>, st: Objects<SetBody>) {
    forall k :: k in WantedKeys(c) && k !in st ==>
      exists i :: 0 <= i < |c.sets| && WantedKey(c, c.sets[i]) == k && !ShowsCopy(past, k, LookUp(faults, i))
  }

  lemma {:induction false} ClimbHas(c: Collection, faults: Faults, past: set<(Key, Held<SetBody>)>,
                                    st: Objects<SetBody>, n: nat, k: Key)
    requires n <= |c.sets|
    ensures k in Climb(c, faults, past, st, n) <==>
      || k in st
      || exists i :: 0 <= i < n && WantedKey(c, c.sets[i]) == k && !ShowsCopy(past, k, LookUp(faults, i))
  {
    if n > 0 {
      ClimbHas(c, faults, past, st, n - 1, k);
    }
  }

  /** Successful upserts leave all wanted sets in place if and only if none is missed. */
  lemma CompleteExactly(c: Collection, faults: Faults, past: set<(Key, Held<SetBody>)>, st: Objects<SetBody>)
    ensures WantedKeys(c) <= Climb(c, faults, past, st, |c.sets|).Keys <==> NoneMissed(c, faults, past, st)
  {
    forall k ensures k in Climb(c, faults, past, st, |c.sets|) <==>
      || k in st
      || exists i :: 0 <= i < |c.sets| && WantedKey(c, c.sets[i]) == k && !ShowsCopy(past, k, LookUp(faults, i))
    {
      ClimbHas(c, faults, past, st, |c.sets|, k);
    }
  }

  /** The i-th entry is the last of its name. */
  predicate Decides(c: Collection, i: nat)
    requires i < |c.sets|
  {
    forall j :: i < j < |c.sets| ==> WantedKey(c, c.sets[j]) != WantedKey(c, c.sets[i])
  }

  /** Its turn leaves the set as wanted, although it may be passed over. */
  predicate TurnsOut(c: Collection, faults: Faults, past: set<(Key, Held<SetBody>)>, st: Objects<SetBody>, i: nat)
    requires i < |c.sets|
  {
    var a, s := Climb(c, faults, past, st, i), c.sets[i];
    PassedOver(c, faults, past, a, i) ==>
      WantedKey(c, s) in a && a[WantedKey(c, s)].body.spec == Effective(c, s)
  }

  lemma {:induction false} LaterTurnsLeaveIt(c: Collection, faults: Faults, past: set<(Key, Held<SetBody>)>,
                                             st: Objects<SetBody>, i: nat, n: nat)
    requires i < n <= |c.sets| && Decides(c, i)
    ensures At(Climb(c, faults, past, st, n), WantedKey(c, c.sets[i]))
            == At(Climb(c, faults, past, st, i + 1), WantedKey(c, c.sets[i]))
  {
    if n > i + 1 {
      LaterTurnsLeaveIt(c, faults, past, st, i, n - 1);
    }
  }

  /** Successful upserts leave every wanted set with its spec if and only if for each of them the last
      entry of its name is not passed over, or the spec was there by then. */
  lemma RaisedExactly(c: Collection, faults: Faults, past: set<(Key, Held<SetBody>)>, st: Objects<SetBody>)
    ensures Raised(c, c.sets, Climb(c, faults, past, st, |c.sets|)) <==>
      forall i :: 0 <= i < |c.sets| && Decides(c, i) ==> TurnsOut(c, faults, past, st, i)
  {
    var top := Climb(c, faults, past, st, |c.sets|);
    forall i | 0 <= i < |c.sets| && Decides(c, i)
      ensures LastFor(c, c.sets, WantedKey(c, c.sets[i])) == Some(c.sets[i])
      ensures TurnsOut(c, faults, past, st, i) <==> Placed(c, c.sets[i], top)
    {
      LastForIs(c, c.sets, WantedKey(c, c.sets[i]), i);
      LaterTurnsLeaveIt(c, faults, past, st, i, |c.sets|);
    }
    forall k | LastFor(c, c.sets, k).Some?
      ensures exists i :: 0 <= i < |c.sets| && Decides(c, i) && WantedKey(c, c.sets[i]) == k
    {
      assert LastFor(c, c.sets, k).value in c.sets;
      var i := LastIndex(c, k, |c.sets|);
    }
  }

  lemma LastIndex(c: Collection, k: Key, n: nat) returns (i: nat)
    requires n <= |c.sets| && exists j :: 0 <= j < n && WantedKey(c, c.sets[j]) == k
    requires forall j :: n <= j < |c.sets| ==> WantedKey(c, c.sets[j]) != k
    ensures i < |c.sets| && Decides(c, i) && WantedKey(c, c.sets[i]) == k
  {
    if WantedKey(c, c.sets[n - 1]) == k {
      i := n - 1;
    } else {
      i := LastIndex(c, k, n - 1);
    }
  }

  // ---------- Other writers at work during the pass ----------

  type Acts = seq<Outside<SetBody>>

  /** What others do before the i-th step of a pass. */
  type Others = nat -> Acts

  const NOBODY: Others := i => []

  ghost predicate Alone(others: Others) {
    forall i :: |others(i)| == 0
  }

  /** Deletes nothing, and does not take the last finalizer off an object under deletion. */
  ghost predicate GentleAct(a: Outside<SetBody>) {
    !a.Deletes? && (a.Edits? ==> forall o: SetObject :: o.deleting ==> a.edit(o).finalizers != {})
  }

  ghost predicate Gentle(acts: Acts) {
    forall a :: a in acts ==> GentleAct(a)
  }

  /** Leaves the fields alone that the pass sets or looks at. It may release an object under
      deletion, but not a wanted one. */
  ghost predicate MeekAct(c: Collection, a: Outside<SetBody>) {
    && a.Edits?
    && (forall o: SetObject :: a.edit(o).body.spec == o.body.spec && a.edit(o).labels == o.labels)
    && (Wanted(c, a.key) ==> GentleAct(a))
  }

  ghost predicate Meek(c: Collection, acts: Acts) {
    forall a :: a in acts ==> MeekAct(c, a)
  }

  ghost predicate AllGentle(others: Others) {
    forall i :: Gentle(others(i))
  }

  ghost predicate AllMeek(c: Collection, others: Others) {
    forall i :: Meek(c, others(i))
  }

  predicate TameAt(a: SetObject, b: SetObject) {
    b.body.spec == a.body.spec && b.labels == a.labels && b.deleting == a.deleting
  }

  /** What meek writers leave: specs, labels and deletion marks stay, nothing is new, and nothing
      wanted is lost. */
  ghost predicate Tame(c: Collection, a: Objects<SetBody>, b: Objects<SetBody>) {
    && (forall k :: k in b ==> k in a && TameAt(a[k], b[k]))
    && (forall k :: k in a && Wanted(c, k) ==> k in b)
  }

  lemma TameChains(c: Collection, x: Objects<SetBody>, y: Objects<SetBody>, z: Objects<SetBody>)
    requires Tame(c, x, y) && Tame(c, y, z)
    ensures Tame(c, x, z)
  {
  }

  lemma ActsAreTame(c: Collection, st: Objects<SetBody>, a: Outside<SetBody>)
    requires OutsideWrite(st, a).Some?
    ensures GentleAct(a) ==> Kept(st, Write(st, a.key, OutsideWrite(st, a).value))
    ensures MeekAct(c, a) ==> Tame(c, st, Write(st, a.key, OutsideWrite(st, a).value))
  {
  }

  method OthersAct(api: ApiServer<SetBody>, c: Collection, acts: Acts)
    requires api.Valid()
    modifies api
    ensures api.Valid() && old(api.trail) <= api.trail
    ensures |acts| == 0 ==> api.Now() == old(api.Now())
    ensures Gentle(acts) ==> Keeping(old(api.objects), |old(api.trail)|, api.objects, api.trail)
    ensures Meek(c, acts) ==> Tame(c, old(api.objects), api.objects)
  {
    ghost var st, past := api.objects, |api.trail|;
    for i := 0 to |acts|
      invariant api.Valid() && old(api.trail) <= api.trail
      invariant i == 0 ==> api.Now() == old(api.Now())
      invariant i == 0 ==> api.objects == st
      invariant Gentle(acts) ==> Keeping(st, past, api.objects, api.trail)
      invariant Meek(c, acts) ==> Tame(c, st, api.objects)
    {
      hide Kept, Tame, Keeping, GentleAct, MeekAct;
      ghost var now, trail := api.objects, api.trail;
      OneActs(api, c, acts[i]);
      if Gentle(acts) {
        KeepingChains(st, past, now, trail, api.objects, api.trail);
      }
      if Meek(c, acts) {
        TameChains(c, st, now, api.objects);
      }
    }
  }

  method OneActs(api: ApiServer<SetBody>, c: Collection, a: Outside<SetBody>)
    requires api.Valid()
    modifies api
    ensures api.Valid() && old(api.trail) <= api.trail
    ensures GentleAct(a) ==> Keeping(old(api.objects), |old(api.trail)|, api.objects, api.trail)
    ensures MeekAct(c, a) ==> Tame(c, old(api.objects), api.objects)
  {
    hide GentleAct, MeekAct;
    ghost var st := api.objects;
    Interfere(api, a);
    if OutsideWrite(st, a).Some? {
      ActsAreTame(c, st, a);
    }
  }

  // ---------- The pass ----------

  method IsOutdated(c: Collection, k: Key) returns (outdated: bool)
    ensures outdated <==> forall s :: s in c.sets ==> k.name != c.name + "-" + s.name
  {
    outdated := true;
    for i := 0 to |c.sets|
      invariant outdated
      invariant forall j :: 0 <= j < i ==> k.name != c.name + "-" + c.sets[j].name
    {
      if k.name == c.name + "-" + c.sets[i].name {
        outdated := false;
        break;
      }
    }
  }

  ghost predicate Placed(c: Collection, s: SetSpec, now: Objects<SetBody>) {
    var k := WantedKey(c, s);
    k in now && now[k].body.spec == Effective(c, s)
  }

  /** All keys but the one of `s` are as meek writers leave them. */
  ghost predicate TameBut(c: Collection, a: Objects<SetBody>, b: Objects<SetBody>, s: SetSpec) {
    && (forall k :: k in b && k != WantedKey(c, s) ==> k in a && TameAt(a[k], b[k]))
    && (forall k :: k in a && Wanted(c, k) ==> k in b)
  }

  /** What is missing was not there in between either. */
  ghost predicate PastKept(past: set<(Key, Held<SetBody>)>, s: Shot<SetBody>) {
    forall k, h :: k !in s.objects ==> ((k, h) in past <==> (k, h) in s.past)
  }

  method UpdateSpec(api: ApiServer<SetBody>, c: Collection, s: SetSpec, onGet: Fault<SetBody>, onPut: Fault<SetBody>)
    returns (r: Result<()>)
    requires api.Valid()
    modifies api
    ensures api.Valid()
    ensures || (api.objects == old(api.objects) && api.trail == old(api.trail))
            || (WantedKey(c, s) in old(api.objects) && api.objects == Upserted(c, old(api.objects), s)
                && api.trail == old(api.trail) + [api.objects])
    ensures r.Ok? ==> WantedKey(c, s) in old(api.objects) && api.objects == Upserted(c, old(api.objects), s)
    ensures r.Ok? ==> onGet != Stale(None)
    ensures r == Err(NotFound) ==> api.Now() == old(api.Now())
    ensures r == Err(NotFound) ==> WantedKey(c, s) !in old(api.objects) || onGet == Stale(None)
    ensures PastKept(old(api.past), api.Now())
    ensures onGet.Deliver? && onPut.Deliver? ==> r.Ok? || r == Err(NotFound)
  {
    hide Updating, Upserted, PastKept, WriteSpec;
    ghost var before := api.Now();
    SpecUpdating(before, c, s, onGet, onPut);
    r := ApplyUpdate(api, WantedKey(c, s), WriteSpec(c, s), onGet, onPut);
    PastKeptBut(before, api.Now(), WantedKey(c, s));
  }

  function WriteSpec(c: Collection, s: SetSpec): Updater<SetBody> {
    (o: SetObject) => Ok(Some(WithSpec(o, Effective(c, s))))
  }

  lemma SpecUpdating(st: Shot<SetBody>, c: Collection, s: SetSpec, onGet: Fault<SetBody>, onPut: Fault<SetBody>)
    requires Sane(st)
    ensures var k := WantedKey(c, s);
      var e := Updating(st, k, WriteSpec(c, s), onGet, onPut);
      && (e.reply.Ok? ==> e.wrote && onGet != Stale(None))
      && (e.wrote ==> e.reply != Err(NotFound) && k in st.objects)
      && (e.wrote ==> Write(st.objects, k, e.left) == Upserted(c, st.objects, s))
      && (e.reply == Err(NotFound) ==> k !in st.objects || onGet == Stale(None))
      && (onGet.Deliver? && onPut.Deliver? ==> e.reply.Ok? || e.reply == Err(NotFound))
  {
    UpdatingIsAtomic(st, WantedKey(c, s), WriteSpec(c, s), onGet, onPut);
  }

  lemma PastKeptBut(s: Shot<SetBody>, s': Shot<SetBody>, k: Key)
    requires (forall j :: j != k ==> SameAt(s, s', j)) && (k !in s'.objects ==> s'.past == s.past)
    ensures PastKept(s.past, s')
  {
    forall j, h | j !in s'.objects ensures (j, h) in s.past <==> (j, h) in s'.past {
      assert j != k ==> SameAt(s, s', j);
    }
  }

  /** The upsert of `s` as a relation between stores. */
  ghost predicate UpsertDone(c: Collection, s: SetSpec, faults: Faults, i: nat, between: Acts, ok: bool,
                             a: Objects<SetBody>, past: nat, b: Objects<SetBody>, trail: seq<Objects<SetBody>>) {
    && (|between| == 0 ==> b == a || b == Upserted(c, a, s))
    && (Gentle(between) ==> Keeping(a, past, b, trail))
    && (Meek(c, between) ==> TameBut(c, a, b, s))
    && (ok && !Recalls(LookUp(faults, i)) ==> WantedKey(c, s) in b)
    && (ok && !Recalls(LookUp(faults, i)) && UpdateRead(faults, i) != Stale(None) && Meek(c, between) ==>
          Placed(c, s, b))
  }

  /** Update the i-th wanted set, or create it when the update found nothing; `between` is what others
      do in between. */
  method Upsert(api: ApiServer<SetBody>, c: Collection, i: nat, faults: Faults, between: Acts)
    returns (r: Result<()>)
    requires api.Valid() && i < |c.sets|
    modifies api
    ensures api.Valid() && old(api.trail) <= api.trail
    ensures UpsertDone(c, c.sets[i], faults, i, between, r.Ok?, old(api.objects), |old(api.trail)|, api.objects,
                       api.trail)
    ensures |between| == 0 ==> PastKept(old(api.past), api.Now())
    ensures |between| == 0 && r.Ok? ==> api.objects == UpsertStep(c, faults, old(api.past), old(api.objects), i)
    ensures Answered(c, faults) && |between| == 0 ==> r.Ok?
  {
    hide UpsertDone, Kept, TameBut, GentleAct, MeekAct, Upserted, WantedKey, Effective, PastKept, ShowsCopy;
    ghost var s, before, past := c.sets[i], api.Now(), |api.trail|;
    assert (4 * i) % 4 == 0 && (4 * i + 1) % 4 == 1 && (4 * i + 3) % 4 == 3;
    r := UpdateSpec(api, c, c.sets[i], UpdateRead(faults, i), faults(4 * i + 1));
    ghost var mid, middle := api.objects, api.trail;
    UpdateDone(c, s, faults, i, between, r.Ok?, before.objects, past, mid, middle);
    if r == Err(NotFound) {
      r := CreateAmid(api, c, c.sets[i], LookUp(faults, i), faults(4 * i + 3), between);
      CreateDone(c, s, faults, i, between, r.Ok?, before.objects, past, mid, middle, api.objects, api.trail);
      if |between| == 0 && r.Ok? {
        CreateIsExact(c, faults, i, before, api.objects);
      }
    }
  }

  lemma CreateIsExact(c: Collection, faults: Faults, i: nat, before: Shot<SetBody>, end: Objects<SetBody>)
    requires i < |c.sets|
    requires var k := WantedKey(c, c.sets[i]);
      && (k in before.objects ==> UpdateRead(faults, i) == Stale(None))
      && (end == before.objects || (k !in before.objects && end == Upserted(c, before.objects, c.sets[i])))
      && (k in end <==> k in before.objects || !ShowsCopy(before.past, k, LookUp(faults, i)))
    ensures end == UpsertStep(c, faults, before.past, before.objects, i)
  {
  }

  lemma UpdateDone(c: Collection, s: SetSpec, faults: Faults, i: nat, between: Acts, ok: bool,
                   st: Objects<SetBody>, past: nat, mid: Objects<SetBody>, middle: seq<Objects<SetBody>>)
    requires || (mid == st && |middle| == past)
             || (WantedKey(c, s) in st && mid == Upserted(c, st, s) && |middle| == past + 1 && middle[past] == mid)
    requires ok ==> WantedKey(c, s) in st && mid == Upserted(c, st, s)
    ensures UpsertDone(c, s, faults, i, between, ok, st, past, mid, middle)
  {
    UpdateKeeps(c, s, st, mid);
  }

  lemma CreateDone(c: Collection, s: SetSpec, faults: Faults, i: nat, between: Acts, ok: bool,
                   st: Objects<SetBody>, past: nat, mid: Objects<SetBody>, middle: seq<Objects<SetBody>>,
                   end: Objects<SetBody>, trail: seq<Objects<SetBody>>)
    requires mid == st && (WantedKey(c, s) !in st || UpdateRead(faults, i) == Stale(None))
    requires UpsertDone(c, s, faults, i, between, false, st, past, mid, middle) && middle <= trail
    requires |between| == 0 ==> end == mid || (WantedKey(c, s) !in mid && end == Upserted(c, mid, s))
    requires Gentle(between) ==> Keeping(mid, |middle|, end, trail)
    requires Meek(c, between) ==> TameBut(c, mid, end, s)
    requires !Recalls(LookUp(faults, i)) && ok ==> WantedKey(c, s) in end
    requires ok && Meek(c, between) && WantedKey(c, s) !in mid && WantedKey(c, s) in end ==> Placed(c, s, end)
    ensures UpsertDone(c, s, faults, i, between, ok, st, past, end, trail)
  {
    hide Gentle, Meek, Keeping;
    if Gentle(between) {
      KeepingChains(st, past, mid, middle, end, trail);
    }
    if Meek(c, between) {
      TameButChains(c, s, st, mid, end);
    }
  }

  lemma UpdateKeeps(c: Collection, s: SetSpec, st: Objects<SetBody>, next: Objects<SetBody>)
    requires next == st || (WantedKey(c, s) in st && next == Upserted(c, st, s))
    ensures Kept(st, next) && TameBut(c, st, next, s)
    ensures WantedKey(c, s) in st ==> WantedKey(c, s) in next
    ensures WantedKey(c, s) in st && next == Upserted(c, st, s) ==> Placed(c, s, next)
  {
  }

  lemma TameButChains(c: Collection, s: SetSpec, x: Objects<SetBody>, y: Objects<SetBody>, z: Objects<SetBody>)
    requires TameBut(c, x, y, s) && TameBut(c, y, z, s)
    ensures TameBut(c, x, z, s)
  {
  }

  lemma NewbornSays(c: Collection, s: SetSpec, now: Objects<SetBody>)
    ensures !Newborn(c, s).deleting && Newborn(c, s).body.spec == Effective(c, s)
    ensures WantedKey(c, s) !in now ==> Upserted(c, now, s) == now[WantedKey(c, s) := Newborn(c, s)]
  {
  }

  lemma CreateKeeps(c: Collection, s: SetSpec, mid: Objects<SetBody>, now: Objects<SetBody>, next: Objects<SetBody>)
    requires next == now || (WantedKey(c, s) !in now && next == Upserted(c, now, s))
    ensures Kept(now, next)
    ensures Tame(c, mid, now) ==>
      TameBut(c, mid, next, s)
      && (WantedKey(c, s) in next && WantedKey(c, s) !in mid ==> Placed(c, s, next))
  {
  }

  /** The create after a fruitless update, and what others do before it. */
  method CreateAmid(api: ApiServer<SetBody>, c: Collection, s: SetSpec, onGet: Fault<SetBody>, onPut: Fault<SetBody>,
                    between: Acts)
    returns (r: Result<()>)
    requires api.Valid() && s in c.sets
    modifies api
    ensures api.Valid() && old(api.trail) <= api.trail
    ensures |between| == 0 ==> api.objects == old(api.objects)
                               || (WantedKey(c, s) !in old(api.objects)
                                   && api.objects == Upserted(c, old(api.objects), s))
    ensures Gentle(between) ==> Keeping(old(api.objects), |old(api.trail)|, api.objects, api.trail)
    ensures Meek(c, between) ==> TameBut(c, old(api.objects), api.objects, s)
    ensures !Recalls(onGet) && r.Ok? ==> WantedKey(c, s) in api.objects
    ensures Meek(c, between) && WantedKey(c, s) !in old(api.objects) && WantedKey(c, s) in api.objects ==>
      Placed(c, s, api.objects)
    ensures |between| == 0 && r.Ok? ==>
      (WantedKey(c, s) in api.objects <==>
        WantedKey(c, s) in old(api.objects) || !ShowsCopy(old(api.past), WantedKey(c, s), onGet))
    ensures |between| == 0 ==> PastKept(old(api.past), api.Now())
    ensures |between| == 0 && (onGet.Deliver? || Recalls(onGet)) && onPut.Deliver? ==> r.Ok?
  {
    hide GentleAct, MeekAct, Kept, Tame, TameBut, Upserted, Newborn, Effective, WantedKey;
    ghost var mid, middle := api.objects, api.trail;
    OthersAct(api, c, between);
    ghost var now, trail := api.objects, api.trail;
    var k, newborn := WantedKey(c, s), Newborn(c, s);
    NewbornSays(c, s, now);
    ghost var before := api.Now();
    r := CreateIfNotExists(api, k, newborn, onGet, onPut);
    PastKeptBut(before, api.Now(), k);
    CreateKeeps(c, s, mid, now, api.objects);
    if Gentle(between) {
      KeepingChains(mid, |middle|, now, trail, api.objects, api.trail);
    }
  }

  lemma OutdatedByName(c: Collection, k: Key)
    requires k.kind == KIND && k.namespace == c.namespace
    ensures Wanted(c, k) <==> exists s :: s in c.sets && k.name == c.name + "-" + s.name
  {
  }

  /** How far the upserts have come after the first `i` entries, from the store `st` on. */
  ghost predicate Climbed(c: Collection, faults: Faults, others: Others, i: nat, st: Objects<SetBody>,
                          past: nat, now: Objects<SetBody>, trail: seq<Objects<SetBody>>)
    requires i <= |c.sets|
  {
    && (AllGentle(others) ==> Keeping(st, past, now, trail))
    && (AllGentle(others) && TrueLookUps(faults) ==> forall j :: 0 <= j < i ==> WantedKey(c, c.sets[j]) in now)
    && (AllMeek(c, others) && TrueReads(faults) ==> Raised(c, c.sets[..i], now))
    && (Alone(others) ==> Lifted(c, st, now))
  }

  /** Where exactly the upserts are after the first `i` entries, if nobody else writes. */
  ghost predicate ClimbedExactly(c: Collection, faults: Faults, i: nat, before: Shot<SetBody>, now: Shot<SetBody>)
    requires i <= |c.sets|
  {
    now.objects == Climb(c, faults, before.past, before.objects, i) && PastKept(before.past, now)
  }

  method UpsertAll(api: ApiServer<SetBody>, c: Collection, faults: Faults, others: Others) returns (r: Result<()>)
    requires api.Valid()
    modifies api
    ensures api.Valid() && old(api.trail) <= api.trail
    ensures Climbed(c, faults, others, if r.Ok? then |c.sets| else 0,
                    old(api.objects), |old(api.trail)|, api.objects, api.trail)
    ensures Alone(others) && r.Ok? ==> ClimbedExactly(c, faults, |c.sets|, old(api.Now()), api.Now())
    ensures Answered(c, faults) && Alone(others) ==> r.Ok?
  {
    r := Ok(());
    ghost var before, past := api.Now(), |api.trail|;
    for i := 0 to |c.sets|
      invariant api.Valid() && r.Ok? && old(api.trail) <= api.trail
      invariant Climbed(c, faults, others, i, before.objects, past, api.objects, api.trail)
      invariant Alone(others) ==> ClimbedExactly(c, faults, i, before, api.Now())
    {
      r := UpsertNext(api, c, i, faults, others, before, past);
      if r.Err? {
        return;
      }
    }
  }

  method UpsertNext(api: ApiServer<SetBody>, c: Collection, i: nat, faults: Faults, others: Others,
                    ghost before: Shot<SetBody>, ghost past: nat)
    returns (r: Result<()>)
    requires api.Valid() && i < |c.sets|
    requires Climbed(c, faults, others, i, before.objects, past, api.objects, api.trail)
    requires Alone(others) ==> ClimbedExactly(c, faults, i, before, api.Now())
    modifies api
    ensures api.Valid() && old(api.trail) <= api.trail
    ensures Climbed(c, faults, others, if r.Ok? then i + 1 else 0, before.objects, past, api.objects, api.trail)
    ensures Alone(others) && r.Ok? ==> ClimbedExactly(c, faults, i + 1, before, api.Now())
    ensures Answered(c, faults) && Alone(others) ==> r.Ok?
  {
    hide Climbed, ClimbedExactly, UpsertDone, UpsertStep, Keeping, Tame, GentleAct, MeekAct, PastKept, Answered;
    ghost var st, now, trail := before.objects, api.Now(), api.trail;
    OthersAct(api, c, others(2 * i));
    OthersKeepClimb(c, faults, others, i, st, past, now.objects, trail, api.objects, api.trail);
    now, trail := api.Now(), api.trail;
    r := Upsert(api, c, i, faults, others(2 * i + 1));
    UpsertKeepsClimb(c, faults, others, i, st, past, now.objects, trail, api.objects, api.trail, r.Ok?);
    if Alone(others) && r.Ok? {
      UpsertIsExact(c, faults, i, before, now, api.Now());
    }
  }

  lemma UpsertIsExact(c: Collection, faults: Faults, i: nat, before: Shot<SetBody>, now: Shot<SetBody>,
                      next: Shot<SetBody>)
    requires i < |c.sets| && ClimbedExactly(c, faults, i, before, now)
    requires next.objects == UpsertStep(c, faults, now.past, now.objects, i) && PastKept(now.past, next)
    ensures ClimbedExactly(c, faults, i + 1, before, next)
  {
    var k := WantedKey(c, c.sets[i]);
    assert k !in now.objects ==>
      (ShowsCopy(now.past, k, LookUp(faults, i)) <==> ShowsCopy(before.past, k, LookUp(faults, i)));
    forall j, h | j !in next.objects ensures (j, h) in before.past <==> (j, h) in next.past {
      assert j !in now.objects;
    }
  }

  lemma OthersKeepClimb(c: Collection, faults: Faults, others: Others, i: nat, st: Objects<SetBody>,
                        past: nat, now: Objects<SetBody>, trail: seq<Objects<SetBody>>,
                        next: Objects<SetBody>, longer: seq<Objects<SetBody>>)
    requires i < |c.sets| && Climbed(c, faults, others, i, st, past, now, trail) && trail <= longer
    requires Alone(others) ==> next == now
    requires AllGentle(others) ==> Keeping(now, |trail|, next, longer)
    requires AllMeek(c, others) ==> Tame(c, now, next)
    ensures Climbed(c, faults, others, i, st, past, next, longer)
  {
    if AllGentle(others) {
      KeepingChains(st, past, now, trail, next, longer);
      KeptKeys(now, next);
    }
    if AllMeek(c, others) && TrueReads(faults) {
      forall k | LastFor(c, c.sets[..i], k).Some?
        ensures k in next && next[k].body.spec == Effective(c, LastFor(c, c.sets[..i], k).value)
      {
        PrefixWants(c, i, k);
      }
    }
  }

  lemma PrefixWants(c: Collection, i: nat, k: Key)
    requires i <= |c.sets| && LastFor(c, c.sets[..i], k).Some?
    ensures Wanted(c, k)
  {
    assert LastFor(c, c.sets[..i], k).value in c.sets;
  }

  lemma UpsertKeepsClimb(c: Collection, faults: Faults, others: Others, i: nat, st: Objects<SetBody>,
                         past: nat, now: Objects<SetBody>, trail: seq<Objects<SetBody>>,
                         next: Objects<SetBody>, longer: seq<Objects<SetBody>>, ok: bool)
    requires i < |c.sets| && Climbed(c, faults, others, i, st, past, now, trail) && trail <= longer
    requires UpsertDone(c, c.sets[i], faults, i, others(2 * i + 1), ok, now, |trail|, next, longer)
    ensures Climbed(c, faults, others, if ok then i + 1 else 0, st, past, next, longer)
  {
    if AllGentle(others) {
      KeepingChains(st, past, now, trail, next, longer);
      KeptKeys(now, next);
    }
    if AllMeek(c, others) && TrueReads(faults) && ok {
      RaisedStep(c, i, now, next);
    }
    if Alone(others) && next != now {
      UpsertLifts(c, st, now, next, c.sets[i]);
    }
  }

  lemma RaisedStep(c: Collection, i: nat, now: Objects<SetBody>, next: Objects<SetBody>)
    requires i < |c.sets| && Raised(c, c.sets[..i], now)
    requires TameBut(c, now, next, c.sets[i]) && Placed(c, c.sets[i], next)
    ensures Raised(c, c.sets[..i + 1], next)
  {
    assert c.sets[..i + 1][..i] == c.sets[..i];
    forall k | LastFor(c, c.sets[..i + 1], k).Some?
      ensures k in next && next[k].body.spec == Effective(c, LastFor(c, c.sets[..i + 1], k).value)
    {
      PrefixWants(c, i + 1, k);
    }
  }

  /** What the listing would still return as outdated is still to be done, or under deletion. */
  ghost predicate Leftover(c: Collection, selected: Labels -> bool, now: Objects<SetBody>, todo: set<Key>) {
    forall k :: k in now && Outdated(c, selected, k, now[k]) && k !in todo ==> AfterDelete(now[k]) == Some(now[k])
  }

  /** How far the deletions have come, from the store `top` on, with `todo` still to be done. */
  ghost predicate Descended(c: Collection, selected: Labels -> bool, others: Others, top: Objects<SetBody>, past: nat,
                            now: Objects<SetBody>, trail: seq<Objects<SetBody>>, todo: set<Key>)
  {
    && (AllGentle(others) && WantedKeys(c) <= top.Keys ==> WantedKeys(c) <= now.Keys && AllComplete(c, trail, past))
    && (AllMeek(c, others) ==> Leftover(c, selected, now, todo))
    && (AllMeek(c, others) && Raised(c, c.sets, top) ==> Raised(c, c.sets, now))
    && (Alone(others) ==> Draining(c, selected, top, now, todo))
    && (Alone(others) && Drained(c, selected, top) ==> Keeping(top, past, now, trail))
  }

  lemma OthersKeepDescent(c: Collection, selected: Labels -> bool, others: Others, top: Objects<SetBody>, past: nat,
                          now: Objects<SetBody>, trail: seq<Objects<SetBody>>,
                          next: Objects<SetBody>, longer: seq<Objects<SetBody>>, todo: set<Key>)
    requires Descended(c, selected, others, top, past, now, trail, todo) && trail <= longer
    requires Alone(others) ==> next == now
    requires AllGentle(others) ==> Keeping(now, |trail|, next, longer)
    requires AllMeek(c, others) ==> Tame(c, now, next)
    requires forall k :: k in next ==> WellFormed(next[k])
    ensures Descended(c, selected, others, top, past, next, longer, todo)
  {
    if AllGentle(others) && WantedKeys(c) <= top.Keys {
      KeepingCompletes(c, past, now, trail, next, longer);
    }
    if Alone(others) && Drained(c, selected, top) {
      KeepingChains(top, past, now, trail, next, longer);
    }
  }

  lemma KeepingCompletes(c: Collection, past: nat, now: Objects<SetBody>, trail: seq<Objects<SetBody>>,
                         next: Objects<SetBody>, longer: seq<Objects<SetBody>>)
    requires AllComplete(c, trail, past) && WantedKeys(c) <= now.Keys && trail <= longer
    requires Keeping(now, |trail|, next, longer)
    ensures AllComplete(c, longer, past) && WantedKeys(c) <= next.Keys
  {
    forall x: Objects<SetBody> | Kept(now, x) ensures WantedKeys(c) <= x.Keys {
      KeptKeys(now, x);
    }
    forall i | past <= i < |longer| ensures WantedKeys(c) <= longer[i].Keys {
      if i < |trail| {
        assert longer[i] == trail[i];
      }
    }
  }

  /** What a turn on the listed set `k` does: nothing, or it deletes the unwanted. */
  ghost predicate Deleted(c: Collection, now: Objects<SetBody>, next: Objects<SetBody>, k: Key) {
    !Wanted(c, k) && k in now && next == Write(now, k, AfterDelete(now[k]))
  }

  lemma DeletionKeepsDescent(c: Collection, selected: Labels -> bool, others: Others, top: Objects<SetBody>, past: nat,
                             now: Objects<SetBody>, trail: seq<Objects<SetBody>>,
                             next: Objects<SetBody>, longer: seq<Objects<SetBody>>, todo: set<Key>, left: set<Key>,
                             k: Key)
    requires Descended(c, selected, others, top, past, now, trail, todo) && k in todo
    requires next == now || Deleted(c, now, next, k)
    requires longer == trail || longer == trail + [next]
    requires left == todo || (left == todo - {k} && (Wanted(c, k) || Deleted(c, now, next, k)))
    requires left == todo ==> next == now
    requires Alone(others) ==> k in top && k.kind == KIND && k.namespace == c.namespace && selected(top[k].labels)
    ensures Descended(c, selected, others, top, past, next, longer, left)
  {
    if AllGentle(others) && WantedKeys(c) <= top.Keys {
      WantedAreThere(c, now);
      WantedAreThere(c, next);
    }
    if Alone(others) {
      assert At(now, k) == Some(top[k]);
      assert todo == todo - {k} + {k};
      if left != todo {
        DrainingStep(c, selected, top, now, next, left, k);
      }
    }
  }

  lemma DrainingStep(c: Collection, selected: Labels -> bool, top: Objects<SetBody>, now: Objects<SetBody>,
                     next: Objects<SetBody>, todo: set<Key>, k: Key)
    requires k in top && k !in todo && Draining(c, selected, top, now, todo + {k})
    requires next == if Outdated(c, selected, k, top[k]) then Write(now, k, AfterDelete(top[k])) else now
    ensures Draining(c, selected, top, next, todo)
  {
  }

  /** One listed set: delete it if it is not wanted. */
  method DeleteIfOutdated(api: ApiServer<SetBody>, c: Collection, k: Key, f: Fault<SetBody>) returns (r: Result<()>)
    requires api.Valid() && k.kind == KIND && k.namespace == c.namespace
    modifies api
    ensures api.Valid()
    ensures || (api.objects == old(api.objects) && api.trail == old(api.trail))
            || (Deleted(c, old(api.objects), api.objects, k) && api.trail == old(api.trail) + [api.objects])
    ensures r.Ok? ==> Wanted(c, k) || Deleted(c, old(api.objects), api.objects, k)
    ensures f.Deliver? && k in old(api.objects) ==> r.Ok?
  {
    r := Ok(());
    var outdated := IsOutdated(c, k);
    OutdatedByName(c, k);
    if outdated {
      r := api.Delete(k, f);
    }
  }

  /** Go through the listed sets, in whatever order they come; `others(at + j)` is what others do
      before the j-th turn. */
  method DeleteOutdated(api: ApiServer<SetBody>, c: Collection, selected: Labels -> bool, items: set<Key>,
                        faults: Faults, at: nat, others: Others, before: nat)
    returns (r: Result<()>, ghost left: set<Key>)
    requires api.Valid()
    requires items == set k | k in api.objects && k.kind == KIND && k.namespace == c.namespace
        && selected(api.objects[k].labels)
    modifies api
    ensures api.Valid() && old(api.trail) <= api.trail
    ensures Descended(c, selected, others, old(api.objects), |old(api.trail)|, api.objects, api.trail, left)
    ensures r.Ok? ==> left == {}
    ensures (forall i :: at <= i ==> faults(i) == Deliver) && Alone(others) ==> r.Ok?
  {
    ghost var top, past := api.objects, |api.trail|;
    var todo, n := items, 0;
    r, left := Ok(()), items;
    NothingDone(c, selected, others, top, api.trail, items);
    hide Descended;
    while todo != {}
      invariant todo == left <= items && api.Valid() && r.Ok? && old(api.trail) <= api.trail
      invariant Descended(c, selected, others, top, past, api.objects, api.trail, todo)
      decreases todo
    {
      var k :| k in todo;
      r, left := DeleteNext(api, c, selected, k, faults(at + n), others, before + n, top, past, todo);
      if r.Err? {
        return;
      }
      todo, n := todo - {k}, n + 1;
    }
  }

  lemma NothingDone(c: Collection, selected: Labels -> bool, others: Others, top: Objects<SetBody>,
                    trail: seq<Objects<SetBody>>, items: set<Key>)
    requires items == set k | k in top && k.kind == KIND && k.namespace == c.namespace && selected(top[k].labels)
    ensures Descended(c, selected, others, top, |trail|, top, trail, items)
  {
  }

  method DeleteNext(api: ApiServer<SetBody>, c: Collection, selected: Labels -> bool, k: Key, f: Fault<SetBody>,
                    others: Others, n: nat, ghost top: Objects<SetBody>, ghost past: nat, ghost todo: set<Key>)
    returns (r: Result<()>, ghost left: set<Key>)
    requires api.Valid() && k in todo && k.kind == KIND && k.namespace == c.namespace
    requires k in top && selected(top[k].labels)
    requires Descended(c, selected, others, top, past, api.objects, api.trail, todo)
    modifies api
    ensures api.Valid() && old(api.trail) <= api.trail
    ensures Descended(c, selected, others, top, past, api.objects, api.trail, left)
    ensures r.Ok? ==> left == todo - {k}
    ensures f.Deliver? && Alone(others) ==> r.Ok?
  {
    ghost var now, trail := api.objects, api.trail;
    OthersAct(api, c, others(n));
    OthersKeepDescent(c, selected, others, top, past, now, trail, api.objects, api.trail, todo);
    now, trail := api.objects, api.trail;
    if Alone(others) {
      assert At(now, k) == Some(top[k]);
    }
    r := DeleteIfOutdated(api, c, k, f);
    left := if r.Err? && api.objects == now then todo else todo - {k};
    DeletionKeepsDescent(c, selected, others, top, past, now, trail, api.objects, api.trail, todo, left, k);
  }

  /** One pass: upsert every wanted set in order, list, delete what is outdated. `faults(i)` is the
      fate of the i-th call; the listing comes after the 4 calls a set may take. `others(i)` is what
      other writers do before the i-th step, of which a set takes two. */
  method ReconcileGlideinSets(api: ApiServer<SetBody>, c: Collection, selected: Labels -> bool,
                              faults: Faults, others: Others)
    returns (r: Result<()>, ghost listed: bool)
    requires api.Valid()
    modifies api
    ensures api.Valid() && old(api.trail) <= api.trail
    // Surge before drain, whatever others create and edit meanwhile.
    ensures AllGentle(others) && TrueLookUps(faults) ==> Surging(c, old(api.objects), api.trail, |old(api.trail)|)
    // With nobody else at work: exactly when no wanted set is missed, or nothing is to be drained.
    ensures Alone(others) && NoneMissed(c, faults, old(api.past), old(api.objects)) ==>
      Surging(c, old(api.objects), api.trail, |old(api.trail)|)
    ensures Alone(others) && r.Ok? && listed ==>
      (Surging(c, old(api.objects), api.trail, |old(api.trail)|) <==>
        NoneMissed(c, faults, old(api.past), old(api.objects)) || Drained(c, selected, old(api.objects)))
    // Among writers that keep to other fields, a pass that reports success and saw a listing leaves
    // a settled cluster; if the listing failed, one in which the upserts are settled.
    ensures AllMeek(c, others) && TrueReads(faults) && r.Ok? ==>
      Settle(c, if listed then selected else NOTHING, api.objects) == api.objects
    // With nobody else at work: wherever the pass was cut short, it has not moved the goal, and on
    // success it has reached it exactly when the last entry of every name took effect.
    ensures Alone(others) ==> Settle(c, selected, api.objects) == Settle(c, selected, old(api.objects))
    ensures Alone(others) && r.Ok? ==>
      (api.objects == Settle(c, if listed then selected else NOTHING, old(api.objects)) <==>
        AllTurnOut(c, faults, old(api.past), old(api.objects)))
    ensures r.Ok? ==> (listed <==> !faults(4 * |c.sets|).Refuse? && !faults(4 * |c.sets|).LoseReply?)
    ensures Answered(c, faults) && Alone(others) ==> r.Ok? && listed
  {
    hide Surging, NoneMissed, Answered, Settle, AllTurnOut, TrueLookUps, TrueReads, AllGentle, AllMeek, Drained,
         Climbed, ClimbedExactly, Descended, api.Valid;
    listed := false;
    ghost var before, past := api.Now(), |api.trail|;
    api.TrailEnds();
    AloneIsBoth(c, others);
    AnsweredAfter(c, faults);
    r := UpsertAll(api, c, faults, others);
    ghost var top, middle := api.Now(), api.trail;
    ClimbSettles(c, faults, others, r.Ok?, before.objects, past, top.objects, middle);
    ClimbKeepsGoal(c, selected, faults, others, if r.Ok? then |c.sets| else 0, before.objects, past, top.objects,
                   middle);
    if r.Err? {
      return;
    }
    var items := api.List(KIND, c.namespace, selected, faults(4 * |c.sets|));
    if items.Err? {
      UnlistedIsExact(c, faults, others, before, past, top, middle);
      return;
    }
    listed := true;
    ghost var left;
    r, left := DeleteOutdated(api, c, selected, items.value, faults, 4 * |c.sets| + 1, others, 2 * |c.sets|);
    api.TrailEnds();
    DescentSettles(c, selected, faults, others, before.objects, past, top.objects, middle, api.objects, api.trail,
                   left, r.Ok?);
    PassIsExact(c, selected, faults, others, before, past, top, middle, api.objects, api.trail, left, r.Ok?);
  }

  /** A pass without a listing, if nobody else writes. */
  lemma UnlistedIsExact(c: Collection, faults: Faults, others: Others, before: Shot<SetBody>, past: nat,
                        top: Shot<SetBody>, middle: seq<Objects<SetBody>>)
    requires Climbed(c, faults, others, |c.sets|, before.objects, past, top.objects, middle)
    requires Alone(others) ==> ClimbedExactly(c, faults, |c.sets|, before, top)
    ensures Alone(others) ==>
      && (NoneMissed(c, faults, before.past, before.objects) ==> Surging(c, before.objects, middle, past))
      && (top.objects == Settle(c, NOTHING, before.objects) <==> AllTurnOut(c, faults, before.past, before.objects))
  {
    AloneIsBoth(c, others);
    if Alone(others) {
      NothingDrains(c, top.objects);
      EndIsExact(c, NOTHING, faults, before, top.objects, top.objects);
      CompleteClimb(c, faults, before, past, top.objects, middle, middle);
    }
  }

  /** And one with a listing. */
  lemma PassIsExact(c: Collection, selected: Labels -> bool, faults: Faults, others: Others, before: Shot<SetBody>,
                    past: nat, top: Shot<SetBody>, middle: seq<Objects<SetBody>>,
                    now: Objects<SetBody>, trail: seq<Objects<SetBody>>, left: set<Key>, ok: bool)
    requires Climbed(c, faults, others, |c.sets|, before.objects, past, top.objects, middle) && middle <= trail
    requires Alone(others) ==> ClimbedExactly(c, faults, |c.sets|, before, top)
    requires Descended(c, selected, others, top.objects, |middle|, now, trail, left) && (ok ==> left == {})
    requires 0 < past <= |trail| && trail[past - 1] == before.objects && trail[|trail| - 1] == now
    ensures Alone(others) ==>
      && (NoneMissed(c, faults, before.past, before.objects) ==> Surging(c, before.objects, trail, past))
      && (ok ==>
            (Surging(c, before.objects, trail, past) <==>
              NoneMissed(c, faults, before.past, before.objects) || Drained(c, selected, before.objects)))
      && (ok ==>
            (now == Settle(c, selected, before.objects) <==> AllTurnOut(c, faults, before.past, before.objects)))
  {
    hide Surging, NoneMissed, Drained, Settle, AllTurnOut, Keeping, Lifted, Draining, AllComplete;
    AloneIsBoth(c, others);
    if Alone(others) {
      CompleteClimb(c, faults, before, past, top.objects, middle, trail);
      if ok {
        EndIsExact(c, selected, faults, before, top.objects, now);
        SurgesExactly(c, selected, faults, before, past, top.objects, middle, now, trail);
      }
    }
  }

  lemma AloneIsBoth(c: Collection, others: Others)
    ensures Alone(others) ==> AllGentle(others) && AllMeek(c, others)
  {
  }

  lemma AnsweredAfter(c: Collection, faults: Faults)
    ensures Answered(c, faults) ==> forall i :: 4 * |c.sets| <= i ==> faults(i) == Deliver
  {
  }

  ghost predicate AllTurnOut(c: Collection, faults: Faults, past: set<(Key, Held<SetBody>)>, st: Objects<SetBody>) {
    forall i :: 0 <= i < |c.sets| && Decides(c, i) ==> TurnsOut(c, faults, past, st, i)
  }

  /** What the upserts have reached, by themselves. */
  lemma ClimbSettles(c: Collection, faults: Faults, others: Others, ok: bool,
                     st: Objects<SetBody>, past: nat, top: Objects<SetBody>, trail: seq<Objects<SetBody>>)
    requires Climbed(c, faults, others, if ok then |c.sets| else 0, st, past, top, trail)
    ensures AllGentle(others) ==> Surging(c, st, trail, past)
    ensures AllGentle(others) && TrueLookUps(faults) && ok ==> WantedKeys(c) <= top.Keys
    ensures AllMeek(c, others) && TrueReads(faults) && ok ==> Raised(c, c.sets, top) && Settle(c, NOTHING, top) == top
    ensures Alone(others) ==> Keeping(st, past, top, trail) && Lifted(c, st, top)
  {
    assert c.sets[..|c.sets|] == c.sets;
    if AllGentle(others) {
      KeepingThenComplete(c, st, past, top, trail, trail);
    }
    if AllMeek(c, others) && TrueReads(faults) && ok {
      SettledExactly(c, NOTHING, top);
    }
  }

  lemma ClimbKeepsGoal(c: Collection, selected: Labels -> bool, faults: Faults, others: Others, i: nat,
                       st: Objects<SetBody>, past: nat, top: Objects<SetBody>, trail: seq<Objects<SetBody>>)
    requires i <= |c.sets| && Climbed(c, faults, others, i, st, past, top, trail)
    ensures Alone(others) ==> Lifted(c, st, top) && Settle(c, selected, top) == Settle(c, selected, st)
    ensures Alone(others) ==> Keeping(st, past, top, trail)
  {
    if Alone(others) {
      LiftedSettles(c, selected, st, top);
    }
  }

  /** What the deletions have reached on top of it. */
  lemma DescentSettles(c: Collection, selected: Labels -> bool, faults: Faults, others: Others,
                       st: Objects<SetBody>, past: nat, top: Objects<SetBody>, middle: seq<Objects<SetBody>>,
                       now: Objects<SetBody>, trail: seq<Objects<SetBody>>, left: set<Key>, ok: bool)
    requires Climbed(c, faults, others, |c.sets|, st, past, top, middle) && middle <= trail
    requires Descended(c, selected, others, top, |middle|, now, trail, left) && (ok ==> left == {})
    ensures TrueLookUps(faults) && AllGentle(others) ==> Surging(c, st, trail, past)
    ensures TrueReads(faults) && AllMeek(c, others) && ok ==> Settle(c, selected, now) == now
    ensures Alone(others) ==> Settle(c, selected, now) == Settle(c, selected, st)
  {
    ClimbSettles(c, faults, others, true, st, past, top, middle);
    if TrueLookUps(faults) && AllGentle(others) {
      KeepingThenComplete(c, st, past, top, middle, trail);
    }
    if TrueReads(faults) && AllMeek(c, others) && ok {
      SettledExactly(c, selected, now);
    }
    if Alone(others) {
      LiftedSettles(c, selected, st, top);
      DrainingSettles(c, selected, top, now, left);
    }
  }

  /** If no wanted set is missed, everything wanted is there when the deletions begin. */
  lemma CompleteClimb(c: Collection, faults: Faults, before: Shot<SetBody>, past: nat, top: Objects<SetBody>,
                      middle: seq<Objects<SetBody>>, trail: seq<Objects<SetBody>>)
    requires top == Climb(c, faults, before.past, before.objects, |c.sets|)
    requires Keeping(before.objects, past, top, middle) && middle <= trail
    requires WantedKeys(c) <= top.Keys ==> AllComplete(c, trail, |middle|)
    ensures NoneMissed(c, faults, before.past, before.objects) ==> Surging(c, before.objects, trail, past)
  {
    CompleteExactly(c, faults, before.past, before.objects);
    if WantedKeys(c) <= top.Keys {
      KeepingThenComplete(c, before.objects, past, top, middle, trail);
    }
  }

  lemma NothingDrains(c: Collection, top: Objects<SetBody>)
    ensures Draining(c, NOTHING, top, top, {})
  {
  }

  /** The pass ends at its goal if and only if the upserts left every wanted set with its spec. */
  lemma EndIsExact(c: Collection, selected: Labels -> bool, faults: Faults, before: Shot<SetBody>,
                   top: Objects<SetBody>, now: Objects<SetBody>)
    requires top == Climb(c, faults, before.past, before.objects, |c.sets|) && Lifted(c, before.objects, top)
    requires Draining(c, selected, top, now, {})
    ensures now == Settle(c, selected, before.objects) <==> AllTurnOut(c, faults, before.past, before.objects)
  {
    LiftedSettles(c, selected, before.objects, top);
    DrainingSettles(c, selected, top, now, {});
    SettledExactly(c, selected, now);
    DrainedRaisedAlike(c, selected, top, now);
    RaisedExactly(c, faults, before.past, before.objects);
  }

  lemma DrainedRaisedAlike(c: Collection, selected: Labels -> bool, top: Objects<SetBody>, now: Objects<SetBody>)
    requires Draining(c, selected, top, now, {})
    ensures Drained(c, selected, now) && (Raised(c, c.sets, top) <==> Raised(c, c.sets, now))
  {
    forall k | LastFor(c, c.sets, k).Some? ensures At(now, k) == At(top, k) {
    }
    forall k | k in now && Outdated(c, selected, k, now[k]) ensures AfterDelete(now[k]) == Some(now[k]) {
      assert At(now, k).Some?;
    }
  }

  /** Surge before drain, exactly: no wanted set was missed, or there was nothing to drain. */
  lemma SurgesExactly(c: Collection, selected: Labels -> bool, faults: Faults, before: Shot<SetBody>, past: nat,
                      top: Objects<SetBody>, middle: seq<Objects<SetBody>>,
                      now: Objects<SetBody>, trail: seq<Objects<SetBody>>)
    requires top == Climb(c, faults, before.past, before.objects, |c.sets|) && Lifted(c, before.objects, top)
    requires Keeping(before.objects, past, top, middle) && middle <= trail
    requires WantedKeys(c) <= top.Keys ==> AllComplete(c, trail, |middle|)
    requires Draining(c, selected, top, now, {})
    requires Drained(c, selected, top) ==> Keeping(top, |middle|, now, trail)
    requires 0 < past <= |trail| && trail[past - 1] == before.objects && trail[|trail| - 1] == now
    ensures Surging(c, before.objects, trail, past) <==>
      NoneMissed(c, faults, before.past, before.objects) || Drained(c, selected, before.objects)
  {
    hide Surging, NoneMissed, Drained, Keeping, Lifted, Draining, AllComplete;
    var st := before.objects;
    CompleteClimb(c, faults, before, past, top, middle, trail);
    UnwantedAreLeft(c, selected, st, top);
    if Drained(c, selected, st) {
      KeepingChains(st, past, top, middle, now, trail);
      KeptSurges(c, st, past, now, trail);
    } else if !NoneMissed(c, faults, before.past, st) {
      MissedDoesNotSurge(c, selected, faults, before, past, top, now, trail);
    }
  }

  lemma KeptSurges(c: Collection, st: Objects<SetBody>, past: nat, now: Objects<SetBody>, trail: seq<Objects<SetBody>>)
    requires Keeping(st, past, now, trail)
    ensures Surging(c, st, trail, past)
  {
    KeepingThenComplete(c, st, past, now, trail, trail);
  }

  lemma MissedDoesNotSurge(c: Collection, selected: Labels -> bool, faults: Faults, before: Shot<SetBody>, past: nat,
                           top: Objects<SetBody>, now: Objects<SetBody>, trail: seq<Objects<SetBody>>)
    requires top == Climb(c, faults, before.past, before.objects, |c.sets|) && Lifted(c, before.objects, top)
    requires Draining(c, selected, top, now, {})
    requires 0 < past <= |trail| && trail[past - 1] == before.objects && trail[|trail| - 1] == now
    requires !NoneMissed(c, faults, before.past, before.objects) && !Drained(c, selected, before.objects)
    ensures !Surging(c, before.objects, trail, past)
  {
    CompleteExactly(c, faults, before.past, before.objects);
    var k := SomethingDrains(c, selected, before.objects, top, now);
    var w :| w in WantedKeys(c) && w !in top;
    hide Climb;
    assert LastFor(c, c.sets, w).Some?;
    assert At(now, w) == At(top, w);
    assert !SurgeFirst(c, before.objects, trail[|trail| - 1]);
  }

  lemma UnwantedAreLeft(c: Collection, selected: Labels -> bool, st: Objects<SetBody>, top: Objects<SetBody>)
    requires Lifted(c, st, top)
    ensures Drained(c, selected, st) <==> Drained(c, selected, top)
  {
    forall k | !Wanted(c, k) ensures At(top, k) == At(st, k) {
      assert LiftedAt(c, st, top, k);
    }
    assert forall k :: !Wanted(c, k) ==> (k in st <==> k in top) && (k in st ==> st[k] == top[k]);
  }

  lemma SomethingDrains(c: Collection, selected: Labels -> bool, st: Objects<SetBody>, top: Objects<SetBody>,
                        now: Objects<SetBody>)
    returns (k: Key)
    requires Lifted(c, st, top) && Draining(c, selected, top, now, {}) && !Drained(c, selected, st)
    ensures Drains(st, now, k)
  {
    k :| k in st && Outdated(c, selected, k, st[k]) && AfterDelete(st[k]) != Some(st[k]);
    assert LiftedAt(c, st, top, k);
    assert At(now, k) == AfterDelete(st[k]);
  }

  lemma TrueReadsTurnOut(c: Collection, faults: Faults, past: set<(Key, Held<SetBody>)>, st: Objects<SetBody>)
    requires TrueReads(faults)
    ensures AllTurnOut(c, faults, past, st)
  {
    forall i | 0 <= i < |c.sets| && Decides(c, i) ensures TurnsOut(c, faults, past, st, i) {
      assert !Recalls(LookUp(faults, i)) && UpdateRead(faults, i) != Stale(None);
    }
  }

  lemma ServedIsTrue(c: Collection, faults: Faults)
    requires Served(faults)
    ensures TrueReads(faults) && Answered(c, faults)
  {
  }

  // ---------- A missed set ----------

  /** Everything is served, but the first look-up shows `copy`. */
  function Recalling(copy: Held<SetBody>): Faults {
    i => if i == 2 then Stale(Some(copy)) else Deliver
  }

  /** A server that once had `gone`, and has `o` now. */
  method ServerThatForgot(gone: Key, newborn: SetObject, present: Key, o: SetObject) returns (api: ApiServer<SetBody>)
    requires gone != present && !newborn.deleting && newborn.finalizers == {} && !o.deleting
    ensures fresh(api) && api.Valid() && api.objects == map[present := o] && (gone, Held(1, newborn)) in api.past
  {
    hide Sane, WellFormed;
    api := new ApiServer();
    var r := api.Create(gone, newborn, Deliver);
    r := api.Delete(gone, Deliver);
    r := api.Create(present, o, Deliver);
  }

  lemma CopyMisses(c: Collection, s: SetSpec, selected: Labels -> bool, stale: Key, o: SetObject, st: Shot<SetBody>)
    requires c.sets == [s] && stale.name != c.name + "-" + s.name
    requires stale.kind == KIND && stale.namespace == c.namespace
    requires selected(o.labels) && !o.deleting && o.finalizers == {}
    requires st.objects == map[stale := o] && (WantedKey(c, s), Held(1, Newborn(c, s))) in st.past
    ensures var faults := Recalling(Held(1, Newborn(c, s)));
      Answered(c, faults) && !NoneMissed(c, faults, st.past, st.objects)
    ensures !Drained(c, selected, st.objects)
  {
    OutdatedByName(c, stale);
    assert s in c.sets;
    NewbornIsApart(c, s, stale);
    assert Outdated(c, selected, stale, st.objects[stale]);
    assert ShowsCopy(st.past, WantedKey(c, s), LookUp(Recalling(Held(1, Newborn(c, s))), 0));
    assert WantedKey(c, s) in WantedKeys(c) && WantedKey(c, s) !in st.objects;
  }

  lemma NewbornIsApart(c: Collection, s: SetSpec, stale: Key)
    requires s in c.sets && stale.name != c.name + "-" + s.name
    ensures WantedKey(c, s) != stale && !Newborn(c, s).deleting && Newborn(c, s).finalizers == {}
  {
    assert c.name + ("-" + s.name) == c.name + "-" + s.name;
  }

  /** It does go wrong: a wanted set was deleted, a cache still shows it, and another set is to be
      drained. The pass reports success, and it drained while the wanted set was missing. */
  method DrainsWithoutSurge(c: Collection, s: SetSpec, selected: Labels -> bool, stale: Key, o: SetObject)
    returns (api: ApiServer<SetBody>, r: Result<()>, ghost st: Objects<SetBody>, ghost past: nat)
    requires c.sets == [s] && stale.name != c.name + "-" + s.name
    requires stale.kind == KIND && stale.namespace == c.namespace
    requires selected(o.labels) && !o.deleting && o.finalizers == {}
    ensures fresh(api) && api.Valid() && r.Ok?
    ensures 0 < past <= |api.trail| && api.trail[past - 1] == st && !Surging(c, st, api.trail, past)
  {
    hide Surging, NoneMissed, Answered, Drained, Recalling, Settle, AllTurnOut, TrueLookUps, TrueReads, AllGentle,
         AllMeek, WantedKey, Newborn, Sane;
    NewbornIsApart(c, s, stale);
    api := ServerThatForgot(WantedKey(c, s), Newborn(c, s), stale, o);
    st, past := api.objects, |api.trail|;
    CopyMisses(c, s, selected, stale, o, api.Now());
    ghost var listed;
    r, listed := ReconcileGlideinSets(api, c, selected, Recalling(Held(1, Newborn(c, s))), NOBODY);
  }

  // ---------- Runs of passes ----------

  /** Any number of passes, each cut short anywhere by any faults and stale reads, and then one
      pass that is served: the cluster ends where a single undisturbed pass would have taken it. */
  method RetryUntilServed(api: ApiServer<SetBody>, c: Collection, selected: Labels -> bool,
                          tries: seq<nat -> Fault<SetBody>>, last: nat -> Fault<SetBody>)
    returns (r: Result<()>)
    requires api.Valid() && Served(last)
    modifies api
    ensures api.Valid() && r.Ok?
    ensures api.objects == Settle(c, selected, old(api.objects))
  {
    hide Surging, NoneMissed, Answered, Settle, AllTurnOut, TrueLookUps, TrueReads, Served, AllGentle, AllMeek;
    ghost var listed;
    ServedIsTrue(c, last);
    for i := 0 to |tries|
      invariant api.Valid()
      invariant Settle(c, selected, api.objects) == Settle(c, selected, old(api.objects))
    {
      r, listed := ReconcileGlideinSets(api, c, selected, tries[i], NOBODY);
    }
    TrueReadsTurnOut(c, last, api.past, api.objects);
    r, listed := ReconcileGlideinSets(api, c, selected, last, NOBODY);
  }

  /** What "settled" means for a wanted name: the last entry for it decides its spec, with the
      collection's URLs; an object that was there keeps everything else, and a new one is the
      collection's own. */
  lemma SettledWanted(c: Collection, selected: Labels -> bool, st: Objects<SetBody>, i: nat)
    requires i < |c.sets| && forall j :: i < j < |c.sets| ==> c.sets[j].name != c.sets[i].name
    ensures var k, goal := Key("GlideinSet", c.namespace, c.name + "-" + c.sets[i].name), Settle(c, selected, st);
      && k in goal
      && goal[k].body.spec.name == c.sets[i].name && goal[k].body.spec.pod == c.sets[i].pod
      && goal[k].body.spec.managerUrl == c.managerUrl
      && goal[k].body.spec.collectorUrl == c.name + "-collector." + c.namespace + ".svc.cluster.local"
      && (k in st ==> goal[k] == st[k].(body := st[k].body.(spec := goal[k].body.spec)))
      && (k !in st ==>
            && goal[k].labels == map["app.kubernetes.io/name" := "GlideinSetCollection",
                                     "app.kubernetes.io/instance" := c.name,
                                     "app.kubernetes.io/created-by" := "controller-manager"]
            && goal[k].owner == c.name && goal[k].finalizers == {} && !goal[k].deleting
            && goal[k].body.manifest == None)
  {
    var k := WantedKey(c, c.sets[i]);
    forall j | 0 <= j < |c.sets| ensures WantedKey(c, c.sets[j]) == k <==> c.sets[j].name == c.sets[i].name {
      NamesAgree(c.name, c.sets[j].name, c.sets[i].name);
    }
    NamesAgree(c.name, c.sets[i].name, c.sets[i].name);
    LastForIs(c, c.sets, k, i);
    SettleAt(c, selected, st, k);
    CollectorUrlIs(c, c.sets[i]);
  }

  lemma NamesAgree(owner: string, a: string, b: string)
    ensures NameFor("-" + a, owner) == owner + "-" + a
    ensures owner + "-" + a == owner + "-" + b <==> a == b
  {
    assert owner + ("-" + a) == owner + "-" + a;
    assert (owner + "-" + a)[|owner| + 1..] == a && (owner + "-" + b)[|owner| + 1..] == b;
  }

  lemma CollectorUrlIs(c: Collection, s: SetSpec)
    ensures Effective(c, s).collectorUrl == c.name + "-collector." + c.namespace + ".svc.cluster.local"
  {
    assert c.name + "-collector" + "." == c.name + "-collector.";
  }

  /** And for any other name: what the listing returns is gone, or marked if a finalizer holds it;
      what it does not return is as before. */
  lemma SettledUnwanted(c: Collection, selected: Labels -> bool, st: Objects<SetBody>, k: Key)
    requires k.kind == "GlideinSet" && k.namespace == c.namespace ==>
      forall s :: s in c.sets ==> k.name != c.name + "-" + s.name
    ensures var goal := Settle(c, selected, st);
      if k in st && k.kind == "GlideinSet" && k.namespace == c.namespace && selected(st[k].labels)
      then At(goal, k) == if st[k].finalizers == {} then None else Some(st[k].(deleting := true))
      else At(goal, k) == At(st, k)
  {
    if k.kind == KIND && k.namespace == c.namespace {
      OutdatedByName(c, k);
    }
    SettleAt(c, selected, st, k);
  }

  lemma {:induction false} LastForIs(c: Collection, sets: seq<SetSpec>, k: Key, i: nat)
    requires i < |sets| && WantedKey(c, sets[i]) == k
    requires forall j :: i < j < |sets| ==> WantedKey(c, sets[j]) != k
    ensures LastFor(c, sets, k) == Some(sets[i])
  {
    if i < |sets| - 1 {
      LastForIs(c, sets[..|sets| - 1], k, i);
    }
  }

  /** A pass whose listing failed reports success all the same. It is right exactly when there was
      nothing left to delete. */
  lemma UnlistedPassIsRightExactly(c: Collection, selected: Labels -> bool, st: Objects<SetBody>)
    ensures Settle(c, NOTHING, st) == Settle(c, selected, st) <==> Drained(c, selected, st)
  {
    var a, b := Settle(c, NOTHING, st), Settle(c, selected, st);
    if a == b {
      forall k | k in st && Outdated(c, selected, k, st[k]) ensures AfterDelete(st[k]) == Some(st[k]) {
        SettleAt(c, NOTHING, st, k);
        SettleAt(c, selected, st, k);
      }
    }
    if Drained(c, selected, st) {
      forall k ensures At(a, k) == At(b, k) {
        SettleAt(c, NOTHING, st, k);
        SettleAt(c, selected, st, k);
      }
      SameStore(a, b);
    }
  }

  /** Two collections share a namespace: what the first one settled, and the second does not want
      by the same name, survives the second one's pass exactly when the listing leaves it out. */
  lemma NeighbourSurvivesExactly(a: Collection, b: Collection, selectedA: Labels -> bool, selectedB: Labels -> bool,
                                 st: Objects<SetBody>, s: SetSpec)
    requires s in a.sets && a.namespace == b.namespace
    requires !Wanted(b, WantedKey(a, s))
    ensures var k, mid := WantedKey(a, s), Settle(a, selectedA, st);
      var end := Settle(b, selectedB, mid);
      && k in mid
      && (At(end, k) == Some(mid[k]) <==> !selectedB(mid[k].labels) || (mid[k].deleting && mid[k].finalizers != {}))
  {
  }
}
