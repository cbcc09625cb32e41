/** The registry of Glidein Manager pollers: which manager URL is polled for which resources
    (glideinmanager_client.go). */
module ManagerRegistry {
  import opened Kube
  import opened GlideinSets

  /** An update handler serves one resource; `stamp` tells apart the reconciles that made it. */
  datatype Handler = Handler(resource: Key, stamp: nat)

  // ---------- The registry as a value: URL -> resource slot -> handler ----------

  type View = map<string, map<string, Handler>>

  predicate Has(v: View, url: string, slot: string) {
    url in v && slot in v[url]
  }

  function Holders(v: View, slot: string): set<string> {
    set u | u in v && slot in v[u]
  }

  predicate NoneEmpty(v: View) {
    forall u :: u in v ==> v[u] != map[]
  }

  /** The view without the registration of `slot` at `url`, and without the poller if that was its
      last one. */
  function Dropped(v: View, url: string, slot: string): View
    requires url in v
  {
    if v[url] - {slot} == map[] then v - {url} else v[url := v[url] - {slot}]
  }

  /** Removing: one registration goes, whichever is found first; the others stay. */
  ghost predicate Removes(v: View, v': View, slot: string) {
    if Holders(v, slot) == {} then v' == v
    else exists u :: u in Holders(v, slot) && v' == Dropped(v, u, slot)
  }

  /** Adding: a new URL gets a poller; a known URL takes the resource over from elsewhere; a known
      registration keeps its old handler. */
  ghost predicate Adds(v: View, v': View, url: string, h: Handler) {
    var slot := Slot(h.resource);
    if url !in v then v' == v[url := map[slot := h]]
    else if slot in v[url] then v' == v
    else exists mid :: Removes(v, mid, slot) && url in mid && v' == mid[url := mid[url][slot := h]]
  }

  lemma DroppedHas(v: View, url: string, slot: string)
    requires Has(v, url, slot) && NoneEmpty(v)
    ensures var d := Dropped(v, url, slot);
      && NoneEmpty(d)
      && (forall u, n :: Has(d, u, n) <==> Has(v, u, n) && (u, n) != (url, slot))
      && (forall u, n :: Has(d, u, n) ==> d[u][n] == v[u][n])
      && d.Keys <= v.Keys
      && (forall u :: u in v && u != url ==> u in d && d[u] == v[u])
      && (url in d <==> exists n :: n in v[url] && n != slot)
  {
    var rest := v[url] - {slot};
    assert forall n :: n in rest <==> n in v[url] && n != slot;
    if rest != map[] {
      var n :| n in rest;
      assert n in v[url] && n != slot;
    }
  }

  /** Removing lowers the number of registrations of a resource by one, if it has any, and leaves
      all other resources alone. */
  lemma RemoveCounts(v: View, v': View, slot: string)
    requires NoneEmpty(v) && Removes(v, v', slot)
    ensures NoneEmpty(v') && v'.Keys <= v.Keys
    ensures |Holders(v', slot)| == if |Holders(v, slot)| == 0 then 0 else |Holders(v, slot)| - 1
    ensures forall n :: n != slot ==> Holders(v', n) == Holders(v, n)
    ensures forall u, n :: Has(v', u, n) ==> Has(v, u, n) && v'[u][n] == v[u][n]
  {
    if Holders(v, slot) != {} {
      var u :| u in Holders(v, slot) && v' == Dropped(v, u, slot);
      assert Has(v, u, slot);
      DroppedHas(v, u, slot);
      hide Has, Holders, Dropped;
      HoldersAre(v, slot);
      HoldersAre(v', slot);
      assert Holders(v', slot) == Holders(v, slot) - {u};
      forall n | n != slot ensures Holders(v', n) == Holders(v, n) {
        SameHolders(v, v', n);
      }
    }
  }

  /** The poller found for the URL is still registered after the resource was removed elsewhere, so
      the handler set on it is not lost. */
  lemma FoundPollerSurvives(v: View, mid: View, url: string, slot: string)
    requires NoneEmpty(v) && url in v && slot !in v[url] && Removes(v, mid, slot)
    ensures url in mid && mid[url] == v[url]
  {
  }

  lemma TakenOver(v: View, mid: View, url: string, h: Handler)
    requires url in v && Slot(h.resource) !in v[url] && Removes(v, mid, Slot(h.resource)) && url in mid
    ensures Adds(v, mid[url := mid[url][Slot(h.resource) := h]], url, h)
  {
  }

  lemma NewHolder(v: View, v': View, url: string, slot: string, h: Handler)
    requires NoneEmpty(v) && !Has(v, url, slot)
    requires v' == v[url := (if url in v then v[url] else map[])[slot := h]]
    ensures NoneEmpty(v') && Has(v', url, slot) && v'[url][slot] == h
    ensures |Holders(v', slot)| == |Holders(v, slot)| + 1
    ensures forall n :: n != slot ==> Holders(v', n) == Holders(v, n)
    ensures forall u, n :: Has(v', u, n) <==> Has(v, u, n) || (u, n) == (url, slot)
  {
    forall u, n ensures Has(v', u, n) <==> Has(v, u, n) || (u, n) == (url, slot) {
    }
    hide Has, Holders;
    HoldersAre(v, slot);
    HoldersAre(v', slot);
    assert Holders(v', slot) == Holders(v, slot) + {url};
    forall n | n != slot ensures Holders(v', n) == Holders(v, n) {
      SameHolders(v, v', n);
    }
  }

  lemma HoldersAre(v: View, n: string)
    ensures forall u :: u in Holders(v, n) <==> Has(v, u, n)
  {
  }

  lemma SameHolders(v: View, v': View, n: string)
    requires forall u :: Has(v', u, n) <==> Has(v, u, n)
    ensures Holders(v', n) == Holders(v, n)
  {
    hide Has, Holders;
    HoldersAre(v, n);
    HoldersAre(v', n);
  }

  /** Adding registers the resource at the URL and leaves all other resources alone. Its number of
      registrations grows exactly when the URL was new or the resource had none. */
  lemma AddCounts(v: View, v': View, url: string, h: Handler)
    requires NoneEmpty(v) && Adds(v, v', url, h)
    ensures NoneEmpty(v') && Has(v', url, Slot(h.resource))
    ensures forall n :: n != Slot(h.resource) ==> Holders(v', n) == Holders(v, n)
    ensures |Holders(v', Slot(h.resource))| == |Holders(v, Slot(h.resource))|
              + (if url !in v || Holders(v, Slot(h.resource)) == {} then 1 else 0)
  {
    var slot := Slot(h.resource);
    if url !in v {
      NewHolder(v, v', url, slot, h);
    } else if slot in v[url] {
      assert url in Holders(v, slot);
    } else {
      var mid :| Removes(v, mid, slot) && url in mid && v' == mid[url := mid[url][slot := h]];
      FoundPollerSurvives(v, mid, url, slot);
      RemoveCounts(v, mid, slot);
      NewHolder(mid, v', url, slot, h);
    }
  }

  /** A registration that is there keeps its old handler, whatever handler the add brings; a new one
      gets it; and no other resource's handlers change. */
  lemma AddKeepsHandlers(v: View, v': View, url: string, h: Handler)
    requires NoneEmpty(v) && Adds(v, v', url, h)
    ensures var slot := h.resource.namespace + "/" + h.resource.name;
      && (Has(v, url, slot) ==> v' == v)
      && (!Has(v, url, slot) ==> Has(v', url, slot) && v'[url][slot] == h)
      && (forall u, n :: Has(v, u, n) && n != slot ==> Has(v', u, n) && v'[u][n] == v[u][n])
  {
    hide Removes, Holders;
    var slot := Slot(h.resource);
    if url in v && slot !in v[url] {
      var mid :| Removes(v, mid, slot) && url in mid && v' == mid[url := mid[url][slot := h]];
      RemoveKeepsOthers(v, mid, slot);
    }
  }

  lemma RemoveKeepsOthers(v: View, v': View, slot: string)
    requires NoneEmpty(v) && Removes(v, v', slot)
    ensures forall u, n :: Has(v, u, n) && n != slot ==> Has(v', u, n) && v'[u][n] == v[u][n]
  {
    if Holders(v, slot) != {} {
      var u :| u in Holders(v, slot) && v' == Dropped(v, u, slot);
      DroppedHas(v, u, slot);
    }
  }

  // ---------- The plain picture: each resource has one URL ----------

  /** The view says exactly that `home[slot]` is polled for `slot`. */
  ghost predicate IsInverse(v: View, home: map<string, string>) {
    NoneEmpty(v) && forall u, n :: Has(v, u, n) <==> n in home && home[n] == u
  }

  /** Keeping the plain picture: it survives an add unless the resource moves to a URL that has no
      poller yet; then the old registration is left behind, and no plain picture fits any more. */
  lemma AddKeepsPictureExactly(v: View, v': View, url: string, h: Handler, home: map<string, string>)
    requires IsInverse(v, home) && Adds(v, v', url, h)
    ensures var slot := Slot(h.resource);
      (exists home' :: IsInverse(v', home')) <==> !(slot in home && home[slot] != url && url !in v)
    ensures var slot := Slot(h.resource);
      !(slot in home && home[slot] != url && url !in v) ==> IsInverse(v', home[slot := url])
  {
    var slot := Slot(h.resource);
    var moved := slot in home && home[slot] != url && url !in v;
    AddCounts(v, v', url, h);
    if moved {
      assert Has(v, home[slot], slot);
      assert Has(v', home[slot], slot) && Has(v', url, slot);
      assert !exists home' :: IsInverse(v', home');
    } else {
      AddMovesHome(v, v', url, h, home);
    }
  }

  lemma AddMovesHome(v: View, v': View, url: string, h: Handler, home: map<string, string>)
    requires IsInverse(v, home) && Adds(v, v', url, h)
    requires !(Slot(h.resource) in home && home[Slot(h.resource)] != url && url !in v)
    ensures IsInverse(v', home[Slot(h.resource) := url])
  {
    var slot := Slot(h.resource);
    if url !in v {
      NewHolder(v, v', url, slot, h);
      assert !Has(v, url, slot);
      assert slot !in home by {
        assert slot in home ==> Has(v, url, slot);
      }
    } else if slot in v[url] {
      assert Has(v, url, slot);
    } else {
      var mid :| Removes(v, mid, slot) && url in mid && v' == mid[url := mid[url][slot := h]];
      RemoveForgetsHome(v, mid, slot, home);
      NewHolder(mid, v', url, slot, h);
    }
  }

  /** In the plain picture, removing a resource removes it for good. */
  lemma RemoveForgetsHome(v: View, v': View, slot: string, home: map<string, string>)
    requires IsInverse(v, home) && Removes(v, v', slot)
    ensures IsInverse(v', home - {slot})
  {
    if slot in home {
      assert Has(v, home[slot], slot);
      assert home[slot] in Holders(v, slot);
      var u :| u in Holders(v, slot) && v' == Dropped(v, u, slot);
      assert Has(v, u, slot);
      DroppedHas(v, u, slot);
    } else {
      assert forall u :: u in Holders(v, slot) ==> Has(v, u, slot);
      assert Holders(v, slot) == {};
    }
  }

  datatype Op = AddOp(url: string, h: Handler) | RemoveOp(slot: string)

  ghost predicate Happens(v: View, op: Op, v': View) {
    match op
    case AddOp(url, h) => Adds(v, v', url, h)
    case RemoveOp(slot) => Removes(v, v', slot)
  }

  /** The plain picture after a run: the URL last added for each resource not removed since. */
  function Homes(ops: seq<Op>): map<string, string> {
    if ops == [] then map[]
    else
      var before := Homes(ops[..|ops| - 1]);
      match ops[|ops| - 1]
      case AddOp(url, h) => before[Slot(h.resource) := url]
      case RemoveOp(slot) => before - {slot}
  }

  /** A resource that is registered is added again only at its own URL or at one that is polled. */
  ghost predicate NeverStrands(views: seq<View>, ops: seq<Op>) {
    forall i :: 0 <= i < |ops| && i < |views| && ops[i].AddOp? ==>
      var home, slot := Homes(ops[..i]), Slot(ops[i].h.resource);
      !(slot in home && home[slot] != ops[i].url && ops[i].url !in views[i])
  }

  /** Over every run from the empty registry that strands no resource, the two-level registry is
      the inverse of a plain map from resource to URL. */
  lemma {:induction false} RunsKeepThePicture(views: seq<View>, ops: seq<Op>)
    requires |views| == |ops| + 1 && views[0] == map[]
    requires forall i :: 0 <= i < |ops| ==> Happens(views[i], ops[i], views[i + 1])
    requires NeverStrands(views, ops)
    ensures IsInverse(views[|ops|], Homes(ops))
  {
    if ops != [] {
      var n := |ops| - 1;
      assert forall i :: 0 <= i <= n ==> ops[..n][..i] == ops[..i];
      RunsKeepThePicture(views[..|ops|], ops[..n]);
      assert ops[..n] == ops[..|ops| - 1];
      match ops[n]
      case AddOp(url, h) => AddKeepsPictureExactly(views[n], views[n + 1], url, h, Homes(ops[..n]));
      case RemoveOp(slot) => RemoveForgetsHome(views[n], views[n + 1], slot, Homes(ops[..n]));
    }
  }

  /** Removing takes a resource out of the registry exactly when it was registered at most once. */
  lemma RemoveIsCompleteExactly(v: View, v': View, slot: string)
    requires NoneEmpty(v) && Removes(v, v', slot)
    ensures Holders(v', slot) == {} <==> |Holders(v, slot)| <= 1
  {
    RemoveCounts(v, v', slot);
  }

  /** The case left behind: a resource whose URL changes to one that is not polled yet stays
      registered at the old URL even after its removal. */
  lemma MovedResourceIsLeftBehind(v0: View, v1: View, v2: View, old_: string, new_: string, a: Handler, b: Handler)
    requires NoneEmpty(v0) && a.resource == b.resource
    requires Has(v0, old_, Slot(a.resource)) && new_ !in v0
    requires Adds(v0, v1, new_, b) && Removes(v1, v2, Slot(b.resource))
    ensures Holders(v2, Slot(a.resource)) != {}
  {
    var slot := Slot(a.resource);
    assert old_ in Holders(v0, slot);
    AddCounts(v0, v1, new_, b);
    RemoveCounts(v1, v2, slot);
    assert |Holders(v0, slot)| >= 1;
  }

  // ---------- The life of a poller ----------

  /** `shaking`: the goroutine of the first handshake is still at it. `started`: the tickers exist.
      `stopped`: they were stopped. `pollLoop` and `refreshLoop`: the two loops are alive. `sent`:
      how many values were put on doneChan. */
  datatype Life = Life(shaking: bool, shaken: bool, started: bool, stopped: bool,
                       pollLoop: bool, refreshLoop: bool, sent: nat)
  {
    /** Started at most once, after a handshake; at most one value sent, and until then the poll
        loop is there to take it. */
    predicate Sane() {
      && (started ==> shaken && !shaking)
      && (pollLoop || refreshLoop ==> started)
      && (started && sent == 0 ==> pollLoop && !stopped)
      && (sent == 1 ==> stopped && !(pollLoop && refreshLoop))
      && (stopped ==> started)
      && sent <= 1
    }
  }

  /** A stop: nothing, if polling never began; else the tickers stop and one value ends one loop. */
  predicate Ended(before: Life, after: Life) {
    if !before.started then after == before
    else
      var stopped := before.(stopped := true, sent := before.sent + 1);
      || (before.pollLoop && after == stopped.(pollLoop := false))
      || (before.refreshLoop && after == stopped.(refreshLoop := false))
  }

  /** A poller that leaves the registry is stopped, if it had started: its tickers, and one of its
      loops. Any other goes on as it is. */
  predicate LifeGoesOn(was: bool, stays: bool, before: Life, after: Life) {
    if was && !stays then
      && after.stopped == before.started && after.sent == (if before.started then 1 else 0)
      && !(after.pollLoop && after.refreshLoop)
      && Ended(before, after)
    else after == before
  }

  lemma LifeStays()
    ensures forall was, l :: LifeGoesOn(was, was, l, l) && LifeGoesOn(false, false, l, l)
  {
  }

  lemma EndedInGoodTime(before: Life, after: Life)
    requires before.Sane() && before.sent == 0 && Ended(before, after)
    ensures LifeGoesOn(true, false, before, after)
  {
  }

  /** Keep trying, up to `retries` times; no tries at all count as success. */
  method DoHandshakeWithRetry(answers: nat -> bool, retries: nat) returns (ok: bool)
    ensures ok <==> retries == 0 || exists i :: 0 <= i < retries && answers(i)
  {
    for i := 0 to retries
      invariant forall j :: 0 <= j < i ==> !answers(j)
    {
      if answers(i) {
        return true;
      }
    }
    return retries == 0;
  }

  const RETRIES := 15

  /** Each handler is registered under the name of its own resource. */
  predicate Keyed(handlers: map<string, Handler>) {
    forall n :: n in handlers ==> Slot(handlers[n].resource) == n
  }

  predicate Fit(listed: bool, handlers: map<string, Handler>, life: Life) {
    && life.Sane() && Keyed(handlers)
    && (if listed then handlers != map[] && life.sent == 0 else handlers == map[])
  }

  lemma FitSays(listed: bool, handlers: map<string, Handler>, life: Life)
    requires Fit(listed, handlers, life)
    ensures life.Sane() && Keyed(handlers)
    ensures if listed then life.sent == 0 else handlers == map[]
  {
  }

  lemma LifeKeepsFit(listed: bool, handlers: map<string, Handler>, life: Life, next: Life)
    requires Fit(listed, handlers, life) && next.Sane() && next.sent == life.sent
    ensures Fit(listed, handlers, next)
  {
  }

  lemma SetKeepsFit(handlers: map<string, Handler>, life: Life, slot: string, h: Handler)
    requires Fit(true, handlers, life) && slot == Slot(h.resource)
    ensures Fit(true, handlers[slot := h], life)
  {
  }

  lemma DropKeepsFit(handlers: map<string, Handler>, life: Life, slot: string)
    requires Fit(true, handlers, life)
    ensures handlers - {slot} != map[] ==> Fit(true, handlers - {slot}, life)
    ensures life.Sane() && life.sent == 0
  {
  }

  const NEWBORN := Life(true, false, false, false, false, false, 0)

  lemma NewIsFit(slot: string, h: Handler)
    requires slot == Slot(h.resource)
    ensures Fit(true, map[slot := h], NEWBORN)
  {
    assert slot in map[slot := h];
  }

  lemma EmptyIsFit(life: Life)
    requires life.Sane()
    ensures Fit(false, map[], life)
  {
  }

  class Poller {
    const url: string
    var handlers: map<string, Handler>
    var life: Life

    constructor (url: string, slot: string, h: Handler)
      ensures this.url == url && handlers == map[slot := h]
      ensures life == NEWBORN
    {
      this.url := url;
      handlers := map[slot := h];
      life := NEWBORN;
    }

    method StartPolling()
      requires life.Sane() && life.shaken && !life.shaking
      modifies this`life
      ensures life.Sane()
      ensures life == if old(life).started then old(life)
          else old(life).(started := true, pollLoop := true, refreshLoop := true)
    {
      if life.started {
        return;
      }
      life := life.(started := true, pollLoop := true, refreshLoop := true);
    }

    /** A send on the unbuffered channel completes only if a loop is there to receive; either may,
        and the one that does ends. */
    method SendDone()
      requires life.pollLoop || life.refreshLoop
      modifies this`life
      ensures || (old(life).pollLoop && life == old(life).(sent := old(life).sent + 1, pollLoop := false))
              || (old(life).refreshLoop && life == old(life).(sent := old(life).sent + 1, refreshLoop := false))
    {
      var toRefresh: bool := *;
      life := life.(sent := life.sent + 1);
      if life.pollLoop && !(toRefresh && life.refreshLoop) {
        life := life.(pollLoop := false);
      } else {
        life := life.(refreshLoop := false);
      }
    }

    /** Called once per poller; that someone receives follows from its life so far. */
    method StopPolling()
      requires life.Sane() && life.sent == 0
      modifies this`life
      ensures life.Sane() && Ended(old(life), life)
    {
      if life.started {
        life := life.(stopped := true);
        SendDone();
      }
    }
  }

  // ---------- The registry in memory ----------

  class Registry {
    var active: map<string, Poller>
    ghost var made: set<Poller>
    ghost var content: View

    predicate Listed(p: Poller)
      reads this
    {
      p.url in active && active[p.url] == p
    }

    /** What holds of every poller ever made: once it is out of the registry it has no handlers. */
    ghost predicate Good(p: Poller)
      reads this, p
    {
      Fit(Listed(p), p.handlers, p.life)
    }

    /** `made` holds every poller ever created; each is listed under its own URL or not at all.
        `content` is the registry as a value. */
    ghost predicate Valid()
      reads this, made
    {
      && content.Keys == active.Keys
      && (forall u :: u in active ==> active[u] in made && active[u].url == u && content[u] == active[u].handlers)
      && (forall p :: p in made ==> Good(p))
    }

    constructor ()
      ensures Valid() && content == map[] && made == {}
    {
      active, made, content := map[], {}, map[];
    }

    lemma ContentSays()
      requires Valid()
      ensures NoneEmpty(content)
      ensures forall u :: u in active ==> u in content && content[u] == active[u].handlers && Listed(active[u])
    {
    }

    method FindHolder(slot: string) returns (url: Option<string>)
      requires Valid()
      ensures url.None? ==> Holders(content, slot) == {}
      ensures url.Some? ==> url.value in active && slot in active[url.value].handlers
    {
      var todo := active.Keys;
      while todo != {}
        invariant todo <= active.Keys
        invariant forall u :: u in active && u !in todo ==> slot !in active[u].handlers
        decreases todo
      {
        var u :| u in todo;
        if slot in active[u].handlers {
          return Some(u);
        }
        todo := todo - {u};
      }
      return None;
    }

    /** Take the resource out of the first poller found to serve it; stop that poller if it serves
        nothing else. */
    method Remove(slot: string)
      requires Valid()
      modifies this`active, this`content, made
      ensures Valid()
      ensures Removes(old(content), content, slot)
      ensures forall u :: u in active ==> u in old(active) && active[u] == old(active[u])
      ensures forall p :: p in old(made) ==> LifeGoesOn(old(Listed(p)), Listed(p), old(p.life), p.life)
    {
      hide LifeGoesOn, Good, Fit, Dropped;
      LifeStays();
      var found := FindHolder(slot);
      if found.None? {
        return;
      }
      assert found.value in Holders(content, slot);
      DropFrom(active[found.value], slot);
    }

    method DropFrom(p: Poller, slot: string)
      requires Valid() && Listed(p) && slot in p.handlers
      modifies this`active, this`content, p
      ensures Valid()
      ensures content == Dropped(old(content), p.url, slot)
      ensures forall u :: u in active ==> u in old(active) && active[u] == old(active[u])
      ensures forall q :: q in made && q != p ==> Listed(q) == old(Listed(q))
      ensures LifeGoesOn(true, Listed(p), old(p.life), p.life)
    {
      hide LifeGoesOn, Good;
      LifeStays();
      if p.handlers - {slot} == map[] {
        Retire(p, slot);
      } else {
        Shrink(p, slot);
      }
    }

    /** The poller serves others too. */
    method Shrink(p: Poller, slot: string)
      requires Valid() && Listed(p) && p.handlers - {slot} != map[]
      modifies this`content, p`handlers
      ensures Valid() && content == old(content)[p.url := old(content)[p.url] - {slot}]
    {
      hide Fit, Slot;
      DropKeepsFit(p.handlers, p.life, slot);
      p.handlers := p.handlers - {slot};
      content := content[p.url := p.handlers];
    }

    /** The poller has served its last resource: it leaves the registry and is stopped. */
    method Retire(p: Poller, slot: string)
      requires Valid() && Listed(p) && p.handlers - {slot} == map[]
      modifies this`active, this`content, p
      ensures Valid() && content == old(content) - {p.url} && active == old(active) - {p.url}
      ensures LifeGoesOn(true, false, old(p.life), p.life)
    {
      hide Fit, Slot, Ended, LifeGoesOn;
      DropKeepsFit(p.handlers, p.life, slot);
      ghost var before := p.life;
      Unlist(p, slot);
      Stop(p);
      EndedInGoodTime(before, p.life);
    }

    method Unlist(p: Poller, slot: string)
      requires Valid() && Listed(p) && p.handlers - {slot} == map[]
      modifies this`active, this`content, p`handlers
      ensures Valid() && content == old(content) - {p.url} && active == old(active) - {p.url}
    {
      hide Fit, Slot;
      DropKeepsFit(p.handlers, p.life, slot);
      EmptyIsFit(p.life);
      p.handlers := p.handlers - {slot};
      active := active - {p.url};
      content := content - {p.url};
      assert forall q :: q in made && q != p ==> Listed(q) == old(Listed(q));
    }

    method Stop(p: Poller)
      requires Valid() && p in made && !Listed(p) && p.life.sent == 0
      modifies p`life
      ensures Valid() && Ended(old(p.life), p.life)
    {
      hide Fit, Slot, Ended;
      FitSays(false, p.handlers, p.life);
      p.StopPolling();
      EmptyIsFit(p.life);
    }

    method Add(clientName: Option<string>, url: string, h: Handler) returns (r: Result<()>)
      requires Valid()
      modifies this, made
      ensures Valid() && old(made) <= made && fresh(made - old(made))
      ensures clientName.None? ==> r.Err? && content == old(content)
      ensures clientName.Some? ==> r.Ok? && Adds(old(content), content, url, h)
      ensures forall u :: u in active && u in old(active) ==> active[u] == old(active[u])
      ensures forall p :: p in made - old(made) ==> Listed(p) && p.url == url && p.life == NEWBORN
      ensures forall p :: p in old(made) ==> LifeGoesOn(old(Listed(p)), Listed(p), old(p.life), p.life)
    {
      hide Good, Dropped, NoneEmpty, Slot, Removes, Holders, LifeGoesOn, Fit;
      LifeStays();
      if clientName.None? {
        return Err(Invalid);
      }
      var slot := Slot(h.resource);
      ContentSays();
      if url !in active {
        AddPoller(url, slot, h);
      } else if slot !in active[url].handlers {
        TakeOver(active[url], slot, h);
      }
      return Ok(());
    }

    /** Remove the resource from wherever it is served, and serve it here. */
    method TakeOver(p: Poller, slot: string, h: Handler)
      requires Valid() && Listed(p) && slot !in p.handlers && slot == Slot(h.resource)
      modifies this`active, this`content, made
      ensures Valid() && Adds(old(content), content, p.url, h)
      ensures forall u :: u in active ==> u in old(active) && active[u] == old(active[u])
      ensures forall q :: q in made ==> LifeGoesOn(old(Listed(q)), Listed(q), old(q.life), q.life)
    {
      hide Good, Dropped, NoneEmpty, Slot, Removes, Adds, Holders, LifeGoesOn, Fit;
      ContentSays();
      Remove(slot);
      ghost var mid := content;
      FoundPollerSurvives(old(content), mid, p.url, slot);
      ContentSays();
      assert Listed(p);
      SetHandler(p, slot, h);
      TakenOver(old(content), mid, p.url, h);
    }

    method AddPoller(url: string, slot: string, h: Handler)
      requires Valid() && url !in active && slot == Slot(h.resource)
      modifies this
      ensures Valid() && old(made) <= made && fresh(made - old(made))
      ensures content == old(content)[url := map[slot := h]]
      ensures forall u :: u in old(active) ==> u in active && active[u] == old(active[u])
      ensures forall p :: p in made - old(made) ==> Listed(p) && p.url == url && p.life == NEWBORN
      ensures forall p :: p in old(made) ==> Listed(p) == old(Listed(p))
    {
      hide Fit, Slot;
      NewIsFit(slot, h);
      var p := new Poller(url, slot, h);
      Enlist(p);
    }

    method Enlist(p: Poller)
      requires Valid() && p.url !in active && p !in made && Fit(true, p.handlers, p.life)
      modifies this
      ensures Valid() && made == old(made) + {p}
      ensures active == old(active)[p.url := p] && content == old(content)[p.url := p.handlers]
    {
      hide Fit, Slot;
      active := active[p.url := p];
      made := made + {p};
      content := content[p.url := p.handlers];
    }

    method SetHandler(p: Poller, slot: string, h: Handler)
      requires Valid() && Listed(p) && slot == Slot(h.resource)
      modifies this`content, p`handlers
      ensures Valid()
      ensures content == old(content)[p.url := old(content)[p.url][slot := h]]
    {
      hide Fit, Slot;
      SetKeepsFit(p.handlers, p.life, slot, h);
      p.handlers := p.handlers[slot := h];
      content := content[p.url := p.handlers];
    }

    /** The goroutine that shakes hands with a new manager ends: on success polling starts, be the
        poller still registered or not. */
    method FinishHandshake(p: Poller, answers: nat -> bool)
      requires Valid() && p in made && p.life.shaking
      modifies p`life
      ensures Valid()
      ensures var ok := exists i :: 0 <= i < 15 && answers(i);
        p.life == old(p.life).(shaking := false, shaken := ok, started := ok, pollLoop := ok, refreshLoop := ok)
    {
      hide Fit, Slot;
      FitSays(Listed(p), p.handlers, p.life);
      ghost var life := p.life;
      var ok := DoHandshakeWithRetry(answers, RETRIES);
      p.life := p.life.(shaking := false, shaken := ok);
      if ok {
        p.StartPolling();
      }
      LifeKeepsFit(Listed(p), p.handlers, life, p.life);
    }

    /** One tick of a poll loop: the handlers an update is passed to. A poller that is no longer
        registered passes it to none, even if it started late or one of its loops outlived stop. */
    method PollTick(p: Poller) returns (served: map<string, Handler>)
      requires Valid() && p in made && p.life.pollLoop
      ensures !Listed(p) ==> served == map[]
      ensures Listed(p) ==> served == content[p.url]
      ensures forall n :: n in served ==> Slot(served[n].resource) == n && Has(content, p.url, n)
    {
      assert Good(p);
      served := p.handlers;
    }

    /** One tick of a refresh loop: it ends when the handshake cannot be renewed. */
    method RefreshTick(p: Poller, answers: nat -> bool)
      requires Valid() && p in made && p.life.refreshLoop
      modifies p`life
      ensures Valid()
      ensures p.life == old(p.life).(refreshLoop := p.life.refreshLoop)
      ensures p.life.refreshLoop <==> exists i :: 0 <= i < 15 && answers(i)
    {
      hide Fit, Slot;
      FitSays(Listed(p), p.handlers, p.life);
      ghost var life := p.life;
      var ok := DoHandshakeWithRetry(answers, RETRIES);
      if !ok {
        p.life := p.life.(refreshLoop := false);
      }
      LifeKeepsFit(Listed(p), p.handlers, life, p.life);
    }
  }
}
