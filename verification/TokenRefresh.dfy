/** One tick of a collector client: fresh tokens into the two token Secrets of its GlideinSet
    (collector_client.go, glideinset_controller.go, glideinsetcollection_controller.go). */
module TokenRefresh {
  import opened Kube
  import opened Names
  import opened SharedObject
  import opened SharedSecret

  /** The fate of a tick's calls: two reads, two tokens asked of the collector, two updates. */
  datatype TickLuck = TickLuck(seeCollector: Fault<Data>, seeTokens: Fault<Data>,
                               glidein: Result<string>, pilot: Result<string>,
                               getCollector: Fault<Data>, putCollector: Fault<Data>,
                               getTokens: Fault<Data>, putTokens: Fault<Data>)

  function SmoothTick(glidein: string, pilot: string): TickLuck {
    TickLuck(Deliver, Deliver, Ok(glidein), Ok(pilot), Deliver, Deliver, Deliver, Deliver)
  }

  // ---------- What a tick comes to ----------

  function Read(s: Shot<Data>, k: Key, f: Fault<Data>): Result<Secret> {
    match Look(s, k, f)
    case Ok(h) => Ok(h.obj)
    case Err(e) => Err(e)
  }

  /** Is there a token to write for both Secrets? */
  predicate Minted(s: Shot<Data>, owner: Key, l: TickLuck) {
    && ShouldUpdateTokens(Read(s, CollectorTokensKey(owner), l.seeCollector),
                          Read(s, TokensKey(owner), l.seeTokens)) == Ok(true)
    && l.glidein.Ok? && l.pilot.Ok?
  }

  function WriteToken(token: string): Updater<Data> {
    o => Ok(Some(Edit(o, Refresh(token))))
  }

  /** What becomes of one Secret; the other one's fate has no part in it. */
  function Refreshed(s: Shot<Data>, k: Key, token: string, onGet: Fault<Data>, onPut: Fault<Data>): Effect<Data> {
    Updating(s, k, WriteToken(token), onGet, onPut)
  }

  ghost predicate TickEnds(s: Shot<Data>, st': Objects<Data>, owner: Key, l: TickLuck) {
    var c, t := CollectorTokensKey(owner), TokensKey(owner);
    if Minted(s, owner, l) then
      && At(st', c) == Refreshed(s, c, l.glidein.value, l.getCollector, l.putCollector).left
      && At(st', t) == Refreshed(s, t, l.pilot.value, l.getTokens, l.putTokens).left
      && forall k :: k != c && k != t ==> At(st', k) == At(s.objects, k)
    else st' == s.objects
  }

  // ---------- The tick ----------

  /** Fetch, edit in place, post. */
  method ApplyToken(api: ApiServer<Data>, k: Key, token: string, onGet: Fault<Data>, onPut: Fault<Data>)
    returns (r: Result<()>)
    requires api.Valid()
    modifies api
    ensures api.Valid()
    ensures var e := Refreshed(old(api.Now()), k, token, onGet, onPut);
      r == e.reply && At(api.objects, k) == e.left
    ensures forall j :: j != k ==> SameAt(old(api.Now()), api.Now(), j)
  {
    hide Edit, Sane, Look;
    var got := api.Get(k, onGet);
    if got.Err? {
      return Err(got.error);
    }
    var sec := got.value.obj;
    var buffer := new SecretBuffer(sec);
    buffer.UpdateCollectorToken(sec, token);
    r := api.Update(k, Held(got.value.version, buffer.Stored(sec)), onPut);
  }

  /** Both updates are tried, whatever becomes of the first; an error of either is reported. */
  method ApplyTokensUpdate(api: ApiServer<Data>, owner: Key, glidein: string, pilot: string, l: TickLuck)
    returns (r: Result<()>)
    requires api.Valid()
    modifies api
    ensures api.Valid()
    ensures var c, t := CollectorTokensKey(owner), TokensKey(owner);
      var first := Refreshed(old(api.Now()), c, glidein, l.getCollector, l.putCollector);
      var second := Refreshed(old(api.Now()), t, pilot, l.getTokens, l.putTokens);
      && At(api.objects, c) == first.left && At(api.objects, t) == second.left
      && (forall k :: k != c && k != t ==> At(api.objects, k) == At(old(api.objects), k))
      && (r.Ok? <==> first.reply.Ok? && second.reply.Ok?)
  {
    hide Sane, Edit, Updating, CollectorTokensKey, TokensKey;
    OwnSecretsDiffer(owner);
    var c, t := CollectorTokensKey(owner), TokensKey(owner);
    ghost var before := api.Now();
    var first := ApplyToken(api, c, glidein, l.getCollector, l.putCollector);
    ghost var middle := api.Now();
    SameAnswers(before, middle, t, WriteToken(pilot), l.getTokens, l.putTokens);
    var second := ApplyToken(api, t, pilot, l.getTokens, l.putTokens);
    assert SameAt(middle, api.Now(), c);
    forall k | k != c && k != t ensures At(api.objects, k) == At(before.objects, k) {
      assert SameAt(before, middle, k) && SameAt(middle, api.Now(), k);
    }
    r := if first.Err? then first else second;
  }

  method HandleTokenUpdates(api: ApiServer<Data>, owner: Key, l: TickLuck)
    requires api.Valid()
    modifies api
    ensures api.Valid()
    ensures TickEnds(old(api.Now()), api.objects, owner, l)
  {
    hide Sane, Edit, Updating, CollectorTokensKey, TokensKey, Look;
    var collector := Seen(api, CollectorTokensKey(owner), l.seeCollector);
    var tokens := Seen(api, TokensKey(owner), l.seeTokens);
    if ShouldUpdateTokens(collector, tokens) != Ok(true) || l.glidein.Err? || l.pilot.Err? {
      return;
    }
    var _ := ApplyTokensUpdate(api, owner, l.glidein.value, l.pilot.value, l);
  }

  method Seen(api: ApiServer<Data>, k: Key, f: Fault<Data>) returns (r: Result<Secret>)
    requires api.Valid()
    ensures r == Read(api.Now(), k, f)
  {
    var got := api.Get(k, f);
    r := if got.Ok? then Ok(got.value.obj) else Err(got.error);
  }

  // ---------- What ticks do to the tokens ----------

  lemma OwnSecretsDiffer(owner: Key)
    ensures CollectorTokensKey(owner) != TokensKey(owner)
  {
    assert |COLLECTOR_TOKENS| == 17 && |TOKENS| == 7;
    assert |NameFor(COLLECTOR_TOKENS, owner.name)| != |NameFor(TOKENS, owner.name)|;
  }

  function TokenAt(st: Objects<Data>, k: Key): Option<string> {
    if k in st then Find(st[k].body, COLLECTOR_TOKEN) else None
  }

  /** The tokens of a GlideinSet are in place. */
  predicate InPlace(st: Objects<Data>, owner: Key, glidein: string, pilot: string) {
    TokenAt(st, CollectorTokensKey(owner)) == Some(glidein) && TokenAt(st, TokensKey(owner)) == Some(pilot)
  }

  /** Both Secrets are there, and ask for tokens as the operator reads them. */
  predicate Asking(st: Objects<Data>, owner: Key) {
    var c, t := CollectorTokensKey(owner), TokensKey(owner);
    c in st && t in st && (CLUSTER_TOKEN !in st[c].body || CLUSTER_TOKEN !in st[t].body)
  }

  /** A tick that cannot read both Secrets, or does not get both tokens, writes nothing. */
  lemma NoAnswerNoTokens(s: Shot<Data>, st': Objects<Data>, owner: Key, l: TickLuck)
    requires TickEnds(s, st', owner, l)
    requires || Look(s, Key("Secret", owner.namespace, owner.name + "-collector-tokens"), l.seeCollector).Err?
             || Look(s, Key("Secret", owner.namespace, owner.name + "-tokens"), l.seeTokens).Err?
             || l.glidein.Err? || l.pilot.Err?
    ensures st' == s.objects
  {
  }

  /** Whatever the reads show, a refresh leaves a Secret alone, or writes its token into the Secret as
      it is now and touches nothing else but the placeholder. */
  lemma RefreshIsClean(s: Shot<Data>, k: Key, token: string, onGet: Fault<Data>, onPut: Fault<Data>)
    requires Sane(s)
    ensures var e := Refreshed(s, k, token, onGet, onPut);
      if !e.wrote then e.left == At(s.objects, k)
      else
        && k in s.objects && e.left.Some? && e.left.value.labels == s.objects[k].labels
        && Find(e.left.value.body, COLLECTOR_TOKEN) == Some(token)
        && (forall x :: x != COLLECTOR_TOKEN && x != PLACEHOLDER ==>
              Find(e.left.value.body, x) == Find(s.objects[k].body, x))
  {
    UpdatingIsAtomic(s, k, WriteToken(token), onGet, onPut);
    if k in s.objects {
      var sec, op := s.objects[k], Refresh(token);
      EditKeepsRest(sec, op);
      forall x ensures Find(Edit(sec, op).body, x) == Left(sec.body, op, x) {
        EditLeaves(sec, op, x);
      }
    }
  }

  lemma ServedRefreshWrites(s: Shot<Data>, k: Key, token: string)
    requires Sane(s) && k in s.objects
    ensures Refreshed(s, k, token, Deliver, Deliver).wrote
  {
    EditKeepsRest(s.objects[k], Refresh(token));
  }

  /** A smooth tick puts both tokens in place; yet the Secrets go on asking, so the next tick writes
      again, and so on for ever. */
  lemma SmoothTickRefreshes(s: Shot<Data>, st': Objects<Data>, owner: Key, glidein: string, pilot: string)
    requires Sane(s) && Asking(s.objects, owner) && TickEnds(s, st', owner, SmoothTick(glidein, pilot))
    ensures InPlace(st', owner, glidein, pilot) && Asking(st', owner)
    ensures var c, t := Key("Secret", owner.namespace, owner.name + "-collector-tokens"),
                        Key("Secret", owner.namespace, owner.name + "-tokens");
      c in st' && t in st' && Find(st'[c].body, "collector.tkn") == Some(glidein)
      && Find(st'[t].body, "collector.tkn") == Some(pilot)
  {
    hide Refreshed, Edit;
    var c, t := CollectorTokensKey(owner), TokensKey(owner);
    RefreshIsClean(s, c, glidein, Deliver, Deliver);
    RefreshIsClean(s, t, pilot, Deliver, Deliver);
    ServedRefreshWrites(s, c, glidein);
    ServedRefreshWrites(s, t, pilot);
    assert CLUSTER_TOKEN[1] != COLLECTOR_TOKEN[1] && CLUSTER_TOKEN[0] != PLACEHOLDER[0];
    assert Find(st'[c].body, CLUSTER_TOKEN) == Find(s.objects[c].body, CLUSTER_TOKEN);
    assert Find(st'[t].body, CLUSTER_TOKEN) == Find(s.objects[t].body, CLUSTER_TOKEN);
  }

  /** One GlideinSet is called like the other with the suffix of a collector. */
  predicate Nested(a: Key, b: Key) {
    a.namespace == b.namespace && a.name == NameFor(COLLECTOR, b.name)
  }

  /** Two GlideinSets share a token Secret exactly when one is nested in the other, and then it is
      the one's tokens Secret and the other's collector-tokens Secret. */
  lemma SharedSecretExactly(a: Key, b: Key)
    requires (a.namespace, a.name) != (b.namespace, b.name)
    ensures TokensKey(a) == CollectorTokensKey(b) <==> Nested(a, b)
    ensures CollectorTokensKey(a) == TokensKey(b) <==> Nested(b, a)
    ensures TokensKey(a) != TokensKey(b) && CollectorTokensKey(a) != CollectorTokensKey(b)
  {
    if a.namespace == b.namespace {
      SecretNamesClashExactly(a.name, TOKENS, b.name, TOKENS);
      SecretNamesClashExactly(a.name, TOKENS, b.name, COLLECTOR_TOKENS);
      SecretNamesClashExactly(a.name, COLLECTOR_TOKENS, b.name, TOKENS);
      SecretNamesClashExactly(a.name, COLLECTOR_TOKENS, b.name, COLLECTOR_TOKENS);
    }
  }

  /** One set's tokens outlast the other set's smooth tick exactly when neither is nested in the
      other, or the tick happened to write the same token. */
  lemma TokensOutlastExactly(s: Shot<Data>, st': Objects<Data>, a: Key, b: Key,
                             glidein: string, pilot: string, glideinB: string, pilotB: string)
    requires (a.namespace, a.name) != (b.namespace, b.name)
    requires Sane(s) && InPlace(s.objects, a, glidein, pilot)
    requires Asking(s.objects, b) && TickEnds(s, st', b, SmoothTick(glideinB, pilotB))
    ensures InPlace(st', a, glidein, pilot) <==>
            && (Nested(a, b) ==> glideinB == pilot)
            && (Nested(b, a) ==> pilotB == glidein)
  {
    hide Refreshed;
    SmoothTickRefreshes(s, st', b, glideinB, pilotB);
    SharedSecretExactly(a, b);
    forall k | k != CollectorTokensKey(b) && k != TokensKey(b) ensures TokenAt(st', k) == TokenAt(s.objects, k) {
      assert At(st', k) == At(s.objects, k);
    }
  }

  // ---------- When the refreshing stops ----------

  /** The remote secrets in the log of the Secret `k` are those that were placed for the GlideinSets
      whose tokens Secret it is. */
  ghost predicate LogFits(log: SecretLog, k: Key, placed: set<(Key, SecretOp)>) {
    forall op: SecretOp :: op.Remote? ==>
      (op in PostsSinceBirth(log) <==> exists b :: (b, op) in placed && TokensKey(b) == k)
  }

  /** Some remote secret placed in the Secret `k` is destined for the key that is looked for. */
  ghost predicate ClusterFor(placed: set<(Key, SecretOp)>, k: Key) {
    exists b, op :: (b, op) in placed && TokensKey(b) == k && Lands(op, CLUSTER_TOKEN)
  }

  lemma ClusterComesFrom(log: SecretLog, k: Key, placed: set<(Key, SecretOp)>)
    requires LogFits(log, k, placed)
    ensures HasCluster(log) <==> ClusterFor(placed, k)
  {
    if HasCluster(log) {
      var op :| op in PostsSinceBirth(log) && Lands(op, CLUSTER_TOKEN);
      var b :| (b, op) in placed && TokensKey(b) == k;
    }
    if ClusterFor(placed, k) {
      var b, op :| (b, op) in placed && TokensKey(b) == k && Lands(op, CLUSTER_TOKEN);
      assert op in PostsSinceBirth(log);
    }
  }

  /** While both Secrets of `a` exist, its refreshing stops if and only if a remote secret destined for
      the key that is looked for was placed for `a` itself, and another one for a GlideinSet nested in
      it. With no set so called, it never stops. */
  lemma RefreshStopsWhenNested(a: Key, c: SecretLog, t: SecretLog, placed: set<(Key, SecretOp)>)
    requires BornEmpty(c) && BornEmpty(t) && Replay(RULES, c).Some? && Replay(RULES, t).Some?
    requires LogFits(c, CollectorTokensKey(a), placed) && LogFits(t, TokensKey(a), placed)
    ensures ShouldUpdateTokens(Ok(Replay(RULES, c).value), Ok(Replay(RULES, t).value)) == Ok(false) <==>
      && (exists b, op ::
            (b, op) in placed && (b.namespace, b.name) == (a.namespace, a.name) && Lands(op, CLUSTER_TOKEN))
      && (exists b, op :: (b, op) in placed && Nested(b, a) && Lands(op, CLUSTER_TOKEN))
  {
    RefreshStopsExactly(c, t);
    ClusterComesFrom(c, CollectorTokensKey(a), placed);
    ClusterComesFrom(t, TokensKey(a), placed);
    forall b: Key ensures TokensKey(b) == TokensKey(a) <==> (b.namespace, b.name) == (a.namespace, a.name)
                  ensures TokensKey(b) == CollectorTokensKey(a) <==> Nested(b, a)
    {
      OwnSecretsDiffer(a);
      assert |COLLECTOR| == 10;
      if (b.namespace, b.name) != (a.namespace, a.name) {
        SharedSecretExactly(a, b);
      }
    }
  }
}
