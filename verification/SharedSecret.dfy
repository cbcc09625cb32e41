/** The tokens Secret of a GlideinSet and its two writers: the collector client, which refreshes one
    token, and the secret poller, which places a remote secret (pilotset_schemas.go,
    collector_schemas.go, glideinset_controller.go). */
module SharedSecret {
  import opened Kube
  import opened Names
  import opened SharedObject

  const PLACEHOLDER := "sample.cfg"
  const COLLECTOR_TOKEN := "collector.tkn"
  const CLUSTER_TOKEN := "cluster.tkn"
  const VERSION_LABEL := "gmos.chtc.wisc.edu/secret-version"

  type Data = map<string, string>
  type Secret = Object<Data>

  /** A remote secret carries its destination path, its decoded value and its version. */
  datatype SecretOp = Refresh(token: string) | Remote(dst: string, value: string, version: string)

  function Find(m: map<string, string>, x: string): Option<string> {
    if x in m then Some(m[x]) else None
  }

  function EmptySecret(owner: string): Secret {
    Object(map[], owner, {}, false, map[PLACEHOLDER := ""])
  }

  /** The two Secrets of a GlideinSet that hold tokens. */
  function TokensKey(owner: Key): Key {
    Key("Secret", owner.namespace, NameFor(TOKENS, owner.name))
  }

  function CollectorTokensKey(owner: Key): Key {
    Key("Secret", owner.namespace, NameFor(COLLECTOR_TOKENS, owner.name))
  }

  /** What follows the last slash of a path. */
  function Basename(path: string): string {
    if path == [] || path[|path| - 1] == '/' then []
    else Basename(path[..|path| - 1]) + [path[|path| - 1]]
  }

  /** The longest suffix without a slash. */
  lemma {:induction false} BasenameMeans(path: string)
    ensures var base := Basename(path);
      && '/' !in base
      && |base| <= |path| && path[|path| - |base|..] == base
      && (|base| < |path| ==> path[|path| - |base| - 1] == '/')
  {
    if path != [] && path[|path| - 1] != '/' {
      BasenameMeans(path[..|path| - 1]);
    }
  }

  // ---------- The two updaters ----------

  /** Does a remote secret land in `x`? */
  predicate Lands(op: SecretOp, x: string) {
    op.Remote? && op.dst != "" && Basename(op.dst) == x
  }

  /** What an update leaves under the key `x`. */
  function Left(data: Data, op: SecretOp, x: string): Option<string> {
    if op.Refresh? && x == COLLECTOR_TOKEN then Some(op.token)
    else if x == PLACEHOLDER then None
    else if Lands(op, x) then Some(op.value)
    else Find(data, x)
  }

  function TouchedKeys(op: SecretOp): set<string> {
    if op.Refresh? then {COLLECTOR_TOKEN} else {Basename(op.dst)}
  }

  function Edit(o: Secret, op: SecretOp): Secret {
    o.(body := map x | x in o.body.Keys + TouchedKeys(op) && Left(o.body, op, x).Some? :: Left(o.body, op, x).value,
       labels := if op.Remote? then o.labels[VERSION_LABEL := op.version] else o.labels)
  }

  /** An empty Data comes back from the server as a nil map, and writing to that panics. */
  predicate Panics(o: Secret, op: SecretOp) {
    op.Remote? && op.dst != "" && o.body == map[]
  }

  const RULES: Rules<Data, SecretOp> := Rules((o, op) => Edit(o, op), (o, op) => Panics(o, op))

  /** A Secret in memory, while an updater changes it in place. */
  class SecretBuffer {
    var data: map<string, string>
    var stringData: map<string, string>
    var labels: map<string, string>

    constructor (o: Secret)
      ensures data == o.body && labels == o.labels && stringData == map[]
    {
      data, labels, stringData := o.body, o.labels, map[];
    }

    /** What the server stores for it: string data is merged over data. */
    function Stored(o: Secret): Secret
      reads this
    {
      o.(body := data + stringData, labels := labels)
    }

    method UpdateCollectorToken(ghost o: Secret, token: string)
      requires data == o.body && labels == o.labels && stringData == map[]
      modifies this
      ensures Stored(o) == Edit(o, Refresh(token))
    {
      stringData := map[COLLECTOR_TOKEN := token];
      data := data - {PLACEHOLDER};
      EditIs(o, Refresh(token), data + stringData);
    }

    /** `panicked` is the write to a nil map; after it nothing is posted. */
    method UpdateRemoteValue(ghost o: Secret, dst: string, encoded: string, version: string,
                             decode: string -> Option<string>)
      returns (r: Result<()>, panicked: bool)
      requires data == o.body && labels == o.labels && stringData == map[]
      modifies this
      ensures decode(encoded).None? ==> r == Err(Rejected) && !panicked && Stored(o) == o
      ensures decode(encoded).Some? ==>
        var op := Remote(dst, decode(encoded).value, version);
        panicked == Panics(o, op) && (!panicked ==> r.Ok? && Stored(o) == Edit(o, op))
    {
      r, panicked := Ok(()), false;
      var val := decode(encoded);
      if val.None? {
        assert data + map[] == data;
        return Err(Rejected), false;
      }
      ghost var op := Remote(dst, val.value, version);
      if dst != "" {
        if data == map[] {
          return Ok(()), true;
        }
        data := data[Basename(dst) := val.value];
      }
      labels := labels[VERSION_LABEL := version];
      data := data - {PLACEHOLDER};
      EditIs(o, op, data + stringData);
    }
  }

  lemma SameData(a: Data, b: Data)
    requires forall x :: Find(a, x) == Find(b, x)
    ensures a == b
  {
    assert forall x :: x in a <==> Find(a, x).Some?;
    assert forall x :: x in b <==> Find(b, x).Some?;
    assert forall x :: x in a ==> Find(a, x) == Some(a[x]) && Find(b, x) == Some(b[x]);
  }

  lemma EditIs(o: Secret, op: SecretOp, data: Data)
    requires forall x :: Find(data, x) == Left(o.body, op, x)
    ensures data == Edit(o, op).body
  {
    forall x ensures Find(Edit(o, op).body, x) == Find(data, x) {
      EditLeaves(o, op, x);
    }
    SameData(data, Edit(o, op).body);
  }

  lemma EditLeaves(o: Secret, op: SecretOp, x: string)
    ensures Find(Edit(o, op).body, x) == Left(o.body, op, x)
  {
  }

  lemma EditKeepsRest(o: Secret, op: SecretOp)
    ensures Edit(o, op).finalizers == o.finalizers && Edit(o, op).deleting == o.deleting && Edit(o, op).owner == o.owner
    ensures Edit(o, op).labels == if op.Remote? then o.labels[VERSION_LABEL := op.version] else o.labels
  {
  }

  /** A refresh, key by key. */
  lemma RefreshMeans(o: Secret, token: string)
    ensures var e := Edit(o, Refresh(token));
      && Find(e.body, "collector.tkn") == Some(token) && "sample.cfg" !in e.body
      && (forall x :: x != "collector.tkn" && x != "sample.cfg" ==> Find(e.body, x) == Find(o.body, x))
      && e.labels == o.labels && e.finalizers == o.finalizers && e.owner == o.owner && e.deleting == o.deleting
  {
    hide Basename;
    forall x ensures Find(Edit(o, Refresh(token)).body, x) == Left(o.body, Refresh(token), x) {
      EditLeaves(o, Refresh(token), x);
    }
  }

  /** A remote secret, key by key. */
  lemma RemoteMeans(o: Secret, dst: string, value: string, version: string)
    ensures var e, base, tag := Edit(o, Remote(dst, value, version)), Basename(dst),
        "gmos.chtc.wisc.edu/secret-version";
      && "sample.cfg" !in e.body
      && (dst != "" && base != "sample.cfg" ==> Find(e.body, base) == Some(value))
      && (forall x :: x != "sample.cfg" && !(dst != "" && x == base) ==> Find(e.body, x) == Find(o.body, x))
      && Find(e.labels, tag) == Some(version) && (forall y :: y != tag ==> Find(e.labels, y) == Find(o.labels, y))
      && e.finalizers == o.finalizers && e.owner == o.owner && e.deleting == o.deleting
  {
    hide Basename;
    var op := Remote(dst, value, version);
    forall x ensures Find(Edit(o, op).body, x) == Left(o.body, op, x) {
      EditLeaves(o, op, x);
    }
  }

  // ---------- What a log says about the Secret ----------

  type SecretLog = seq<Entry<Data, SecretOp>>

  /** The last accepted write to the key `x`. */
  function LastWrite(log: SecretLog, x: string): Option<string> {
    if log == [] then None
    else match log[|log| - 1]
      case Born(o) => Find(o.body, x)
      case Deleted => LastWrite(log[..|log| - 1], x)
      case Posted(op) =>
        if op.Refresh? && x == COLLECTOR_TOKEN then Some(op.token)
        else if x == PLACEHOLDER then None
        else if Lands(op, x) then Some(op.value)
        else LastWrite(log[..|log| - 1], x)
  }

  /** The last remote secret accepted since the Secret was last created. */
  function LastRemote(log: SecretLog): (r: Option<SecretOp>)
    ensures r.Some? ==> r.value.Remote? && Posted(r.value) in log
  {
    if log == [] then None
    else match log[|log| - 1]
      case Born(_) => None
      case Deleted => LastRemote(log[..|log| - 1])
      case Posted(op) => if op.Remote? then Some(op) else LastRemote(log[..|log| - 1])
  }

  /** The token refreshed last, if that was after the last remote secret. */
  function TokenSinceRemote(log: SecretLog): Option<string> {
    if log == [] then None
    else match log[|log| - 1]
      case Born(_) => None
      case Deleted => TokenSinceRemote(log[..|log| - 1])
      case Posted(op) => if op.Refresh? then Some(op.token) else None
  }

  function PostsSinceBirth(log: SecretLog): seq<SecretOp> {
    if log == [] then []
    else match log[|log| - 1]
      case Born(_) => []
      case Deleted => PostsSinceBirth(log[..|log| - 1])
      case Posted(op) => PostsSinceBirth(log[..|log| - 1]) + [op]
  }

  /** Every creation in the log is that of an EmptySecretCreator. */
  ghost predicate BornEmpty(log: SecretLog) {
    forall i :: 0 <= i < |log| && log[i].Born? ==> exists owner :: log[i].obj == EmptySecret(owner)
  }

  /** The Secret is, key by key, what the last accepted write to each key left. */
  lemma {:induction false} ReplayTellsData(log: SecretLog, x: string)
    ensures Replay(RULES, log).Some? ==> Find(Replay(RULES, log).value.body, x) == LastWrite(log, x)
  {
    if log != [] {
      var before := log[..|log| - 1];
      ReplayTellsData(before, x);
      if log[|log| - 1].Posted? && Replay(RULES, before).Some? {
        EditLeaves(Replay(RULES, before).value, log[|log| - 1].op, x);
      }
    }
  }

  lemma {:induction false} ReplayTellsVersion(log: SecretLog)
    requires BornEmpty(log) && Replay(RULES, log).Some?
    ensures Find(Replay(RULES, log).value.labels, VERSION_LABEL)
            == if LastRemote(log).Some? then Some(LastRemote(log).value.version) else None
  {
    var before, last := log[..|log| - 1], log[|log| - 1];
    match last
    case Born(o) =>
    case _ =>
      ReplayTellsVersion(before);
  }

  /** The destination of the last remote secret holds its value unless it is the placeholder, which
      is removed again, or the collector's key, which a later refresh overwrites. */
  lemma {:induction false} RemoteStaysExactly(log: SecretLog)
    requires LastRemote(log).Some? && LastRemote(log).value.dst != ""
    ensures var r := LastRemote(log).value;
      var base := Basename(r.dst);
      LastWrite(log, base) == Some(r.value) <==>
        base != PLACEHOLDER && (base == COLLECTOR_TOKEN ==> TokenSinceRemote(log) in {None, Some(r.value)})
  {
    var before, last := log[..|log| - 1], log[|log| - 1];
    if last.Deleted? || last.op.Refresh? {
      RemoteStaysExactly(before);
    }
  }

  /** Version coherence: in every interleaving of token refreshes and remote updates, the version
      label is that of the last accepted remote secret, and the value that came with it is in place
      exactly under the conditions above. */
  lemma VersionCoherence(actions: seq<Action<Data, SecretOp>>)
    requires forall a :: a in actions && a.Create? ==> exists owner :: a.obj == EmptySecret(owner)
    requires forall a :: a in actions && a.Post? && a.op.Remote? ==> a.op.dst != ""
    ensures var w := Run(RULES, Start(), actions);
      w.current.Some? ==>
        var sec := w.current.value.obj;
        match LastRemote(w.log)
        case None => VERSION_LABEL !in sec.labels
        case Some(r) =>
          && Find(sec.labels, VERSION_LABEL) == Some(r.version)
          && (Find(sec.body, Basename(r.dst)) == Some(r.value) <==>
                Basename(r.dst) != PLACEHOLDER
                    && (Basename(r.dst) == COLLECTOR_TOKEN ==> TokenSinceRemote(w.log) in {None, Some(r.value)}))
  {
    var w := Run(RULES, Start(), actions);
    InterleavingsAreAtomic(RULES, actions);
    LogIsAskedFor(RULES, Start(), actions);
    forall i | 0 <= i < |w.log| && w.log[i].Born? ensures exists owner :: w.log[i].obj == EmptySecret(owner) {
      assert w.log[i] in w.log;
      assert Asked(w.log[i], actions);
    }
    if w.current.Some? {
      ReplayTellsVersion(w.log);
      if LastRemote(w.log).Some? {
        assert Asked(Posted(LastRemote(w.log).value), actions);
        RemoteStaysExactly(w.log);
        ReplayTellsData(w.log, Basename(LastRemote(w.log).value.dst));
      }
    }
  }

  // ---------- The placeholder and the nil map ----------

  /** The placeholder is gone after the first accepted update and never returns. */
  lemma {:induction false} PlaceholderIsGone(log: SecretLog)
    requires Replay(RULES, log).Some? && PostsSinceBirth(log) != []
    ensures PLACEHOLDER !in Replay(RULES, log).value.body
  {
    ReplayTellsData(log, PLACEHOLDER);
    PlaceholderUnwritten(log);
  }

  lemma {:induction false} PlaceholderUnwritten(log: SecretLog)
    requires PostsSinceBirth(log) != []
    ensures LastWrite(log, PLACEHOLDER).None?
  {
    if log[|log| - 1].Deleted? {
      PlaceholderUnwritten(log[..|log| - 1]);
    }
  }

  /** A remote secret whose destination leaves nothing behind. */
  predicate LeavesNothing(op: SecretOp) {
    op.Remote? && (op.dst == "" || Basename(op.dst) == PLACEHOLDER)
  }

  /** The Secret's Data is empty exactly when something was posted since its creation and everything
      posted was a remote secret destined for the placeholder. */
  lemma {:induction false} DataIsEmptyExactly(log: SecretLog)
    requires BornEmpty(log) && Replay(RULES, log).Some?
    ensures Replay(RULES, log).value.body == map[] <==>
            PostsSinceBirth(log) != [] && forall op :: op in PostsSinceBirth(log) ==> LeavesNothing(op)
  {
    var before, last := log[..|log| - 1], log[|log| - 1];
    if last.Born? {
      assert PLACEHOLDER in last.obj.body;
    } else {
      DataIsEmptyExactly(before);
      var o := Replay(RULES, before).value;
      if last.Posted? {
        OnlyPlaceholder(before);
        EditEmptiesExactly(o, last.op);
      }
    }
  }

  lemma EditEmptiesExactly(o: Secret, op: SecretOp)
    ensures Edit(o, op).body == map[] <==> LeavesNothing(op) && forall x :: x in o.body ==> x == PLACEHOLDER
  {
    var e := Edit(o, op);
    forall x ensures x in e.body <==> Left(o.body, op, x).Some? {
      EditLeaves(o, op, x);
    }
    if !LeavesNothing(op) {
      var x := if op.Refresh? then COLLECTOR_TOKEN else Basename(op.dst);
      assert Left(o.body, op, x).Some?;
    }
    forall x | x in o.body && x != PLACEHOLDER ensures x in e.body {
      EditLeaves(o, op, x);
    }
  }

  lemma {:induction false} OnlyPlaceholder(log: SecretLog)
    requires BornEmpty(log) && Replay(RULES, log).Some?
    ensures PostsSinceBirth(log) == [] ==> Replay(RULES, log).value.body == map[PLACEHOLDER := ""]
    ensures PostsSinceBirth(log) != [] ==> PLACEHOLDER !in Replay(RULES, log).value.body
  {
    if PostsSinceBirth(log) != [] {
      PlaceholderIsGone(log);
    } else {
      Untouched(log);
    }
  }

  lemma {:induction false} Untouched(log: SecretLog)
    requires BornEmpty(log) && Replay(RULES, log).Some? && PostsSinceBirth(log) == []
    ensures Replay(RULES, log).value.body == map[PLACEHOLDER := ""]
  {
    if log[|log| - 1].Deleted? {
      Untouched(log[..|log| - 1]);
    }
  }

  predicate Sound(a: Action<Data, SecretOp>) {
    match a
    case Create(o) => o == EmptySecret(o.owner)
    case Post(_, op) => !LeavesNothing(op)
    case _ => true
  }

  lemma PrefixBornEmpty(log: SecretLog, n: nat)
    requires n <= |log| && BornEmpty(log)
    ensures BornEmpty(log[..n])
  {
  }

  lemma {:induction false} PostsAreInLog(log: SecretLog, op: SecretOp)
    requires op in PostsSinceBirth(log)
    ensures Posted(op) in log
  {
    if log[|log| - 1] != Posted(op) {
      PostsAreInLog(log[..|log| - 1], op);
    }
  }

  ghost predicate SoundLog(log: SecretLog) {
    BornEmpty(log) && forall op :: Posted(op) in log ==> !LeavesNothing(op)
  }

  /** No copy that any writer can hold, fresh or stale, has empty Data. */
  lemma CopiesHaveData(w: World<Data, SecretOp>, h: Held<Data>)
    requires Inv(RULES, w) && SoundLog(w.log) && h in w.past
    ensures h.obj.body != map[]
  {
    var log := w.log[..h.version];
    PrefixBornEmpty(w.log, h.version);
    DataIsEmptyExactly(log);
    if PostsSinceBirth(log) != [] {
      var op := PostsSinceBirth(log)[0];
      PostsAreInLog(log, op);
      assert Posted(op) in w.log;
    }
  }

  lemma SoundLogGrows(log: SecretLog, e: Entry<Data, SecretOp>, a: Action<Data, SecretOp>)
    requires SoundLog(log) && Sound(a) && Asked(e, [a])
    ensures SoundLog(log + [e])
  {
  }

  lemma SoundStep(w: World<Data, SecretOp>, a: Action<Data, SecretOp>)
    requires Inv(RULES, w) && SoundLog(w.log) && !w.panicked && Sound(a)
    ensures SoundLog(Step(RULES, w, a).log) && !Step(RULES, w, a).panicked
  {
    var next := Step(RULES, w, a);
    if a.Post? && a.writer in w.desk {
      CopiesHaveData(w, w.desk[a.writer]);
    }
    if next.log != w.log {
      var e := next.log[|w.log|];
      assert next.log == w.log + [e];
      assert a in [a];
      SoundLogGrows(w.log, e, a);
    }
  }

  lemma {:induction false} NeverPanicsFrom(w: World<Data, SecretOp>, actions: seq<Action<Data, SecretOp>>)
    requires Inv(RULES, w) && SoundLog(w.log) && !w.panicked
    requires forall a :: a in actions ==> Sound(a)
    ensures !Run(RULES, w, actions).panicked
    decreases |actions|
  {
    if actions != [] {
      SoundStep(w, actions[0]);
      StepKeepsInv(RULES, w, actions[0]);
      NeverPanicsFrom(Step(RULES, w, actions[0]), actions[1..]);
    }
  }

  /** The write to the Data map never meets a nil map, as long as no destination is called like the
      placeholder. */
  lemma NeverPanics(actions: seq<Action<Data, SecretOp>>)
    requires forall a :: a in actions ==> Sound(a)
    ensures !Run(RULES, Start(), actions).panicked
  {
    NeverPanicsFrom(Start(), actions);
  }

  /** Whereas any destination called like the placeholder can bring the operator down: the first
      version empties the Secret, the next one meets the nil map. */
  lemma PlaceholderDestinationPanics(owner: string, first: SecretOp, second: SecretOp)
    requires first.Remote? && first.dst != "" && Basename(first.dst) == PLACEHOLDER
    requires second.Remote? && second.dst != ""
    ensures var o := EmptySecret(owner);
      Run(RULES, Start(), [Create(o), Fetch(0, Held(1, o)), Post(0, first), Fetch(0, Held(2, Edit(o, first))),
                           Post(0, second)]).panicked
  {
    var o := EmptySecret(owner);
    var e := Edit(o, first);
    FirstVersionEmpties(owner, first);
    var w3 := Step(RULES, Step(RULES, Step(RULES, Start(), Create(o)), Fetch(0, Held(1, o))), Post(0, first));
    FetchThenPost(RULES, w3, 0, Held(2, e), second);
    FiveSteps(RULES, Create(o), Fetch(0, Held(1, o)), Post(0, first), Fetch(0, Held(2, e)), Post(0, second));
  }

  lemma FirstVersionEmpties(owner: string, first: SecretOp)
    requires first.Remote? && first.dst != "" && Basename(first.dst) == PLACEHOLDER
    ensures var o := EmptySecret(owner);
      var w := Step(RULES, Step(RULES, Step(RULES, Start(), Create(o)), Fetch(0, Held(1, o))), Post(0, first));
      Held(2, Edit(o, first)) in w.past && Edit(o, first).body == map[]
  {
    PlaceholderEditEmpties(owner, first);
    hide Edit, EmptySecret, Basename;
    FirstPost(RULES, EmptySecret(owner), 0, first);
  }

  lemma PlaceholderEditEmpties(owner: string, first: SecretOp)
    requires first.Remote? && first.dst != "" && Basename(first.dst) == PLACEHOLDER
    ensures var o := EmptySecret(owner);
      && o.finalizers == {} && !o.deleting && !Panics(o, first)
      && Edit(o, first).body == map[] && Edit(o, first).finalizers == {} && !Edit(o, first).deleting
  {
    var o := EmptySecret(owner);
    assert PLACEHOLDER in o.body;
    hide Basename, Edit;
    EditEmptiesExactly(o, first);
    EditKeepsRest(o, first);
  }

  // ---------- When tokens are refreshed ----------

  /** Whether the collector client asks for new tokens, from the answers to its two reads. */
  function ShouldUpdateTokens(glidein: Result<Secret>, ep: Result<Secret>): Result<bool> {
    if glidein.Ok? && ep.Ok? then
      Ok(CLUSTER_TOKEN !in glidein.value.body || CLUSTER_TOKEN !in ep.value.body)
    else if glidein == Err(NotFound) && ep == Err(NotFound) then Ok(false)
    else if ep.Err? then Err(ep.error) else Err(glidein.error)
  }

  /** Exactly when new tokens are asked for, when not, and when the check fails. */
  lemma ShouldUpdateExactly(glidein: Result<Secret>, ep: Result<Secret>)
    ensures var r := ShouldUpdateTokens(glidein, ep);
      && (r == Ok(true) <==>
            glidein.Ok? && ep.Ok? && !("cluster.tkn" in glidein.value.body && "cluster.tkn" in ep.value.body))
      && (r == Ok(false) <==>
            || (glidein.Ok? && ep.Ok? && "cluster.tkn" in glidein.value.body && "cluster.tkn" in ep.value.body)
            || (glidein == Err(NotFound) && ep == Err(NotFound)))
  {
  }

  /** A log in which some remote secret was placed under the key that is looked for. */
  predicate HasCluster(log: SecretLog) {
    exists op :: op in PostsSinceBirth(log) && Lands(op, CLUSTER_TOKEN)
  }

  /** The key that is looked for is not the key that refreshes write: it is there if and only if some
      remote secret since the Secret's creation was destined for it. */
  lemma {:induction false} ClusterTokenExactly(log: SecretLog)
    requires BornEmpty(log)
    ensures LastWrite(log, CLUSTER_TOKEN).Some? <==> HasCluster(log)
  {
    if log != [] {
      var before, last := log[..|log| - 1], log[|log| - 1];
      PrefixBornEmpty(log, |log| - 1);
      ClusterTokenExactly(before);
      match last
      case Born(_) =>
        var owner :| last.obj == EmptySecret(owner);
      case Deleted =>
      case Posted(op) =>
        assert CLUSTER_TOKEN[1] != COLLECTOR_TOKEN[1];
        if Lands(op, CLUSTER_TOKEN) {
          assert op in PostsSinceBirth(log);
        } else {
          assert forall o :: o in PostsSinceBirth(log) <==> o in PostsSinceBirth(before) || o == op;
        }
    }
  }

  /** As long as both Secrets exist, the refreshing stops if and only if each of them was given a
      remote secret under the key that is looked for, whatever was refreshed. */
  lemma RefreshStopsExactly(c: SecretLog, t: SecretLog)
    requires BornEmpty(c) && BornEmpty(t) && Replay(RULES, c).Some? && Replay(RULES, t).Some?
    ensures ShouldUpdateTokens(Ok(Replay(RULES, c).value), Ok(Replay(RULES, t).value))
            == Ok(!(HasCluster(c) && HasCluster(t)))
  {
    ReplayTellsData(c, CLUSTER_TOKEN);
    ReplayTellsData(t, CLUSTER_TOKEN);
    ClusterTokenExactly(c);
    ClusterTokenExactly(t);
  }
}
