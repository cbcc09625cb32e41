/** The part of the Kubernetes API server the operator relies on, and the two generic
    read-modify-write steps built on it (api_util.go). */
module Kube {

  datatype Option<+T> = None | Some(value: T)

  datatype Error = NotFound | AlreadyExists | Conflict | Invalid | Unavailable | Rejected

  datatype Result<+T> = Ok(value: T) | Err(error: Error)

  datatype Key = Key(kind: string, namespace: string, name: string)

  /** An API object; its resource version is kept apart, in Held and in ApiServer.versions. */
  datatype Object<+T> = Object(labels: map<string, string>, owner: string, finalizers: set<string>,
                               deleting: bool, body: T)

  /** A copy of an object in a client's memory, with the resource version it was read at. */
  datatype Held<+T> = Held(version: nat, obj: Object<T>)

  /** What happens to one API call: it is served; it fails without effect; it takes effect but
      the reply is lost; or, for a read, a cache answers with an older state. */
  datatype Fault<+T> = Deliver | Refuse | LoseReply | Stale(seen: Option<Held<T>>)

  type Objects<T> = map<Key, Object<T>>

  function At<T>(s: Objects<T>, k: Key): Option<Object<T>> {
    if k in s then Some(s[k]) else None
  }

  /** Store `r` at `k`, or nothing. */
  function Write<T>(s: Objects<T>, k: Key, r: Option<Object<T>>): Objects<T> {
    if r.Some? then s[k := r.value] else s - {k}
  }

  lemma SameStore<T>(a: Objects<T>, b: Objects<T>)
    requires forall k :: At(a, k) == At(b, k)
    ensures a == b
  {
    assert forall k :: k in a <==> At(a, k).Some?;
    assert forall k :: k in b <==> At(b, k).Some?;
    assert forall k :: k in a ==> At(a, k) == Some(a[k]) && At(b, k) == Some(b[k]);
  }

  /** A deletion mark cannot be lifted by an update, and an object under deletion goes away with
      its last finalizer. */
  function AfterPost<T>(cur: Object<T>, next: Object<T>): Option<Object<T>> {
    if cur.deleting && next.finalizers == {} then None else Some(next.(deleting := cur.deleting))
  }

  /** No finalizer can be added to an object under deletion. */
  predicate Admissible<T>(cur: Object<T>, next: Object<T>) {
    cur.deleting ==> next.finalizers <= cur.finalizers
  }

  /** Deleting an object removes it, unless a finalizer holds it: then it is only marked. */
  function AfterDelete<T>(cur: Object<T>): Option<Object<T>> {
    if cur.finalizers == {} then None else Some(cur.(deleting := true))
  }

  predicate WellFormed<T>(o: Object<T>) {
    o.deleting ==> o.finalizers != {}
  }

  // ---------- The server at one moment ----------

  /** Its objects, the versions they are at, and every state an object ever had. */
  datatype Shot<T(==)> = Shot(objects: Objects<T>, versions: map<Key, nat>, past: set<(Key, Held<T>)>)

  /** A version is issued once, so a copy at the current version is the current object. */
  ghost predicate Sane<T(!new)>(s: Shot<T>) {
    && s.versions.Keys == s.objects.Keys
    && (forall k :: k in s.objects ==> (k, Held(s.versions[k], s.objects[k])) in s.past && WellFormed(s.objects[k]))
    && (forall e :: e in s.past && e.0 in s.objects && s.versions[e.0] == e.1.version ==> s.objects[e.0] == e.1.obj)
  }

  function Fetch<T>(s: Shot<T>, k: Key): Result<Held<T>> {
    if k in s.objects && k in s.versions then Ok(Held(s.versions[k], s.objects[k])) else Err(NotFound)
  }

  /** A read that is answered with an older copy, if there is one. */
  predicate Recalls<T>(f: Fault<T>) {
    f.Stale? && f.seen.Some?
  }

  predicate ShowsCopy<T(==)>(past: set<(Key, Held<T>)>, k: Key, f: Fault<T>) {
    Recalls(f) && (k, f.seen.value) in past
  }

  /** What a read is answered. */
  function Look<T(==)>(s: Shot<T>, k: Key, f: Fault<T>): Result<Held<T>> {
    if f.Refuse? || f.LoseReply? then Err(Unavailable)
    else if f == Stale(None) then Err(NotFound)
    else if ShowsCopy(s.past, k, f) then Ok(f.seen.value)
    else Fetch(s, k)
  }

  /** Why an update of `k` from the copy `h` would be turned down, if it would. */
  function Refusal<T>(s: Shot<T>, k: Key, h: Held<T>): Option<Error> {
    if k !in s.objects || k !in s.versions then Some(NotFound)
    else if s.versions[k] != h.version then Some(Conflict)
    else if !Admissible(s.objects[k], h.obj) then Some(Invalid)
    else None
  }

  /** An updater turns the fetched object into the one to post, finds nothing to do, or fails. */
  type Updater<!T> = Object<T> -> Result<Option<Object<T>>>

  /** What a call leaves at its key, whether it wrote, and what it returns. */
  datatype Effect<+T> = Effect(left: Option<Object<T>>, wrote: bool, reply: Result<()>)

  function Posting<T>(s: Shot<T>, k: Key, h: Held<T>, f: Fault<T>): Effect<T> {
    var no := Refusal(s, k, h);
    if f.Refuse? then Effect(At(s.objects, k), false, Err(Unavailable))
    else if no.Some? then Effect(At(s.objects, k), false, Err(no.value))
    else Effect(AfterPost(s.objects[k], h.obj), true, if f.LoseReply? then Err(Unavailable) else Ok(()))
  }

  /** Fetch, edit, post. */
  function Updating<T(==)>(s: Shot<T>, k: Key, edit: Updater<T>, onGet: Fault<T>, onPut: Fault<T>): Effect<T> {
    match Look(s, k, onGet)
    case Err(e) => Effect(At(s.objects, k), false, Err(e))
    case Ok(h) =>
      match edit(h.obj)
      case Err(e) => Effect(At(s.objects, k), false, Err(e))
      case Ok(None) => Effect(At(s.objects, k), false, Ok(()))
      case Ok(Some(o)) => Posting(s, k, Held(h.version, o), onPut)
  }

  /** The object as it is, and the edit of it posted. */
  function Edited<T>(s: Shot<T>, k: Key, edit: Updater<T>): Option<Object<T>> {
    if k in s.objects && edit(s.objects[k]).Ok? && edit(s.objects[k]).value.Some?
    then AfterPost(s.objects[k], edit(s.objects[k]).value.value)
    else At(s.objects, k)
  }

  /** Even when the fetched copy is old, what is posted is the edit of the object as it is now: all or
      nothing. Success means that it was posted, or that some state of the object needed no edit. */
  lemma UpdatingIsAtomic<T(!new)>(s: Shot<T>, k: Key, edit: Updater<T>, onGet: Fault<T>, onPut: Fault<T>)
    requires Sane(s)
    ensures var e := Updating(s, k, edit, onGet, onPut);
      && e.left == (if e.wrote then Edited(s, k, edit) else At(s.objects, k))
      && (e.wrote ==> k in s.objects && (e.reply.Ok? || onPut.LoseReply?))
      && (e.reply.Ok? ==> e.wrote || exists h :: (k, h) in s.past && edit(h.obj) == Ok(None))
  {
    var got := Look(s, k, onGet);
    if got.Ok? {
      assert (k, got.value) in s.past;
    }
  }

  /** With an honest read, exactly the edit of the present object decides. */
  lemma HonestUpdating<T(!new)>(s: Shot<T>, k: Key, edit: Updater<T>, onGet: Fault<T>, onPut: Fault<T>)
    requires Sane(s) && !onGet.Stale?
    ensures var e := Updating(s, k, edit, onGet, onPut);
      && (e.reply == Err(NotFound) <==> onGet.Deliver? && (k !in s.objects || edit(s.objects[k]) == Err(NotFound)))
      && (e.reply.Ok? ==> k in s.objects && edit(s.objects[k]).Ok? && e.left == Edited(s, k, edit))
      && (onGet.Deliver? && k in s.objects ==>
            match edit(s.objects[k])
            case Err(error) => e.reply == Err(error) && !e.wrote
            case Ok(None) => e.reply.Ok? && !e.wrote
            case Ok(Some(o)) =>
              && (e.wrote <==> !onPut.Refuse? && Admissible(s.objects[k], o))
              && (e.reply.Ok? <==> e.wrote && !onPut.LoseReply?)
              && (e.wrote ==> e.left == AfterPost(s.objects[k], o)))
  {
  }

  /** Two moments at which `k` is the same, and was the same before. */
  ghost predicate SameAt<T(!new)>(s: Shot<T>, s': Shot<T>, k: Key) {
    && At(s.objects, k) == At(s'.objects, k)
    && (k in s.versions <==> k in s'.versions)
    && (k in s.versions ==> s.versions[k] == s'.versions[k])
    && (forall h :: (k, h) in s.past <==> (k, h) in s'.past)
  }

  lemma SameAnswers<T(!new)>(s: Shot<T>, s': Shot<T>, k: Key, edit: Updater<T>, onGet: Fault<T>, onPut: Fault<T>)
    requires SameAt(s, s', k)
    ensures Look(s, k, onGet) == Look(s', k, onGet)
    ensures Updating(s, k, edit, onGet, onPut) == Updating(s', k, edit, onGet, onPut)
  {
  }

  /** The server after a write of `r` to `k` at version `n`. */
  function WriteShot<T(==)>(s: Shot<T>, k: Key, n: nat, r: Option<Object<T>>): Shot<T> {
    Shot(Write(s.objects, k, r),
         if r.Some? then s.versions[k := n] else s.versions - {k},
         if r.Some? then s.past + {(k, Held(n, r.value))} else s.past)
  }

  lemma WriteKeepsSane<T(!new)>(s: Shot<T>, k: Key, clock: nat, r: Option<Object<T>>)
    requires Sane(s) && (r.Some? ==> WellFormed(r.value)) && forall e :: e in s.past ==> e.1.version <= clock
    ensures Sane(WriteShot(s, k, clock + 1, r))
    ensures forall e :: e in WriteShot(s, k, clock + 1, r).past ==> e.1.version <= clock + 1
  {
  }

  class ApiServer<T(==,!new)> {
    var objects: map<Key, Object<T>>
    var versions: map<Key, nat>
    var clock: nat
    var past: set<(Key, Held<T>)>
    ghost var trail: seq<map<Key, Object<T>>>

    function Now(): Shot<T>
      reads this
    {
      Shot(objects, versions, past)
    }

    ghost predicate Valid()
      reads this
    {
      && Sane(Now())
      && (forall e :: e in past ==> e.1.version <= clock)
      && 0 < |trail| && trail[|trail| - 1] == objects
    }

    constructor ()
      ensures Valid() && objects == map[] && past == {} && clock == 0
    {
      objects, versions, clock, past := map[], map[], 0, {};
      trail := [map[]];
    }

    /** An accepted write is one new version and one new state on the trail. */
    twostate predicate Wrote(k: Key, new r: Option<Object<T>>)
      reads this
    {
      && clock == old(clock) + 1
      && Now() == WriteShot(old(Now()), k, clock, r)
      && trail == old(trail) + [objects]
    }

    method Commit(k: Key, r: Option<Object<T>>)
      requires Valid()
      requires r.Some? ==> WellFormed(r.value)
      modifies this
      ensures Valid()
      ensures Wrote(k, r)
    {
      hide Sane, WellFormed, WriteShot;
      WriteKeepsSane(Now(), k, clock, r);
      var s := WriteShot(Now(), k, clock + 1, r);
      objects, versions, past, clock := s.objects, s.versions, s.past, clock + 1;
      trail := trail + [objects];
    }

    lemma TrailEnds()
      requires Valid()
      ensures 0 < |trail| && trail[|trail| - 1] == objects
    {
    }

    function Get(k: Key, f: Fault<T>): (r: Result<Held<T>>)
      requires Valid()
      reads this
      ensures r.Ok? ==> (k, r.value) in past
    {
      Look(Now(), k, f)
    }

    /** The keys of one kind in one namespace whose labels are selected. */
    function List(kind: string, namespace: string, selected: map<string, string> -> bool, f: Fault<T>): Result<set<Key>>
      reads this
    {
      if f.Refuse? || f.LoseReply? then Err(Unavailable)
      else Ok(set k | k in objects && k.kind == kind && k.namespace == namespace && selected(objects[k].labels))
    }

    method Update(k: Key, h: Held<T>, f: Fault<T>) returns (r: Result<()>)
      requires Valid()
      modifies this
      ensures Valid()
      ensures if f.Refuse? || Refusal(old(Now()), k, h).Some? then unchanged(this)
              else Wrote(k, AfterPost(old(objects)[k], h.obj))
      ensures r == if f.Refuse? then Err(Unavailable)
                   else if Refusal(old(Now()), k, h).Some? then Err(Refusal(old(Now()), k, h).value)
                   else if f.LoseReply? then Err(Unavailable) else Ok(())
    {
      if f.Refuse? {
        return Err(Unavailable);
      }
      var no := Refusal(Now(), k, h);
      if no.Some? {
        return Err(no.value);
      }
      Commit(k, AfterPost(objects[k], h.obj));
      r := if f.LoseReply? then Err(Unavailable) else Ok(());
    }

    method Create(k: Key, o: Object<T>, f: Fault<T>) returns (r: Result<()>)
      requires Valid() && !o.deleting
      modifies this
      ensures Valid()
      ensures if f.Refuse? || k in old(objects) then r.Err? && unchanged(this)
              else Wrote(k, Some(o)) && r.Ok? == !f.LoseReply?
      ensures r.Err? ==> r.error == AlreadyExists || r.error == Unavailable
    {
      if f.Refuse? {
        return Err(Unavailable);
      }
      if k in objects {
        return Err(AlreadyExists);
      }
      Commit(k, Some(o));
      r := if f.LoseReply? then Err(Unavailable) else Ok(());
    }

    method Delete(k: Key, f: Fault<T>) returns (r: Result<()>)
      requires Valid()
      modifies this
      ensures Valid()
      ensures if f.Refuse? || k !in old(objects) then r.Err? && unchanged(this)
              else Wrote(k, AfterDelete(old(objects)[k])) && r.Ok? == !f.LoseReply?
    {
      if f.Refuse? {
        return Err(Unavailable);
      }
      if k !in objects {
        return Err(NotFound);
      }
      Commit(k, AfterDelete(objects[k]));
      r := if f.LoseReply? then Err(Unavailable) else Ok(());
    }
  }

  /** What somebody else does to an object, at one stroke. */
  datatype Outside<!T> =
    | Creates(key: Key, obj: Object<T>)
    | Edits(key: Key, edit: Object<T> -> Object<T>)
    | Deletes(key: Key)

  /** What the server makes of it: nothing, or an object stored or removed. */
  function OutsideWrite<T>(s: Objects<T>, a: Outside<T>): Option<Option<Object<T>>> {
    match a
    case Creates(k, o) => if k !in s && !o.deleting then Some(Some(o)) else None
    case Edits(k, edit) =>
      if k in s && Admissible(s[k], edit(s[k])) then Some(AfterPost(s[k], edit(s[k]))) else None
    case Deletes(k) => if k in s && !s[k].deleting then Some(AfterDelete(s[k])) else None
  }

  method Interfere<T(==,!new)>(api: ApiServer<T>, a: Outside<T>)
    requires api.Valid()
    modifies api
    ensures api.Valid()
    ensures var w := OutsideWrite(old(api.objects), a);
      if w.Some? then api.Wrote(a.key, w.value) else unchanged(api)
  {
    var w := OutsideWrite(api.objects, a);
    if w.Some? {
      api.Commit(a.key, w.value);
    }
  }

  /** Fetch, edit, post. */
  method ApplyUpdate<T(==,!new)>(api: ApiServer<T>, k: Key, edit: Updater<T>, onGet: Fault<T>, onPut: Fault<T>)
    returns (r: Result<()>)
    requires api.Valid()
    modifies api
    ensures api.Valid()
    ensures var e := Updating(old(api.Now()), k, edit, onGet, onPut);
      && r == e.reply
      && (if e.wrote
          then api.objects == Write(old(api.objects), k, e.left) && api.trail == old(api.trail) + [api.objects]
          else api.Now() == old(api.Now()) && api.trail == old(api.trail))
    ensures forall j :: j != k ==> SameAt(old(api.Now()), api.Now(), j)
    ensures k !in api.objects ==> api.past == old(api.past)
  {
    hide Sane, Look, WellFormed;
    var got := api.Get(k, onGet);
    if got.Err? {
      return Err(got.error);
    }
    var edited := edit(got.value.obj);
    if edited.Err? {
      return Err(edited.error);
    }
    if edited.value.None? {
      return Ok(());
    }
    r := api.Update(k, Held(got.value.version, edited.value.value), onPut);
  }

  /** Look first, create only what is missing; what exists is never touched. After success the object
      exists, unless it did not and the look-up showed an old copy of it. */
  method CreateIfNotExists<T(==,!new)>(api: ApiServer<T>, k: Key, o: Object<T>, onGet: Fault<T>, onPut: Fault<T>)
    returns (r: Result<()>)
    requires api.Valid() && !o.deleting
    modifies api
    ensures api.Valid()
    ensures || (api.Now() == old(api.Now()) && api.trail == old(api.trail))
            || (k !in old(api.objects) && api.objects == old(api.objects)[k := o]
                && api.trail == old(api.trail) + [api.objects])
    ensures r.Ok? ==> (k in api.objects <==> k in old(api.objects) || !ShowsCopy(old(api.past), k, onGet))
    ensures (onGet.Deliver? || Recalls(onGet)) && (k in old(api.objects) || onPut.Deliver?) ==> r.Ok?
    ensures k !in api.objects ==> api.past == old(api.past)
    ensures forall j :: j != k ==> SameAt(old(api.Now()), api.Now(), j)
  {
    var got := api.Get(k, onGet);
    if got.Ok? {
      return Ok(());
    }
    if got.error != NotFound {
      return Err(got.error);
    }
    r := api.Create(k, o, onPut);
  }
}
