/** One API object shared by any number of writers that each fetch it, edit their copy and post it
    back (api_util.go), with fetch and post as separate steps and fetches possibly stale. */
module SharedObject {
  import opened Kube

  /** What a writer does to its copy, and when doing it would bring the process down. */
  datatype Rules<!T, !Op> = Rules(edit: (Object<T>, Op) -> Object<T>, panics: (Object<T>, Op) -> bool)

  /** The accepted writes, in the order the server accepted them. */
  datatype Entry<+T, +Op> = Born(obj: Object<T>) | Posted(op: Op) | Deleted

  datatype World<T(==), +Op> = World(current: Option<Held<T>>, past: set<Held<T>>, desk: map<nat, Held<T>>,
                                 log: seq<Entry<T, Op>>, panicked: bool)

  datatype Action<+T, +Op> =
    | Create(obj: Object<T>)
    | Fetch(writer: nat, seen: Held<T>)
    | Post(writer: nat, op: Op)
    | GiveUp(writer: nat)
    | Delete

  function Start<T(==), Op>(): World<T, Op> {
    World(None, {}, map[], [], false)
  }

  /** An accepted write is logged and becomes the next version. */
  function Commit<T(==), Op>(w: World<T, Op>, e: Entry<T, Op>, r: Option<Object<T>>): World<T, Op> {
    var log := w.log + [e];
    if r.Some? then
      w.(current := Some(Held(|log|, r.value)), past := w.past + {Held(|log|, r.value)}, log := log)
    else
      w.(current := None, log := log)
  }

  /** Does the server take what `writer` would post? */
  predicate Accepted<T(==), Op>(rules: Rules<T, Op>, w: World<T, Op>, h: Held<T>, op: Op) {
    && w.current.Some?
    && w.current.value.version == h.version
    && Admissible(w.current.value.obj, rules.edit(h.obj, op))
  }

  function Step<T(==), Op>(rules: Rules<T, Op>, w: World<T, Op>, a: Action<T, Op>): World<T, Op> {
    match a
    case Create(o) => if w.current.None? && !o.deleting then Commit(w, Born(o), Some(o)) else w
    case Fetch(i, h) => if h in w.past then w.(desk := w.desk[i := h]) else w
    case GiveUp(i) => w.(desk := w.desk - {i})
    case Delete =>
      if w.current.Some? && !w.current.value.obj.deleting
      then Commit(w, Deleted, AfterDelete(w.current.value.obj)) else w
    case Post(i, op) =>
      if i !in w.desk then w
      else
        var h, idle := w.desk[i], w.(desk := w.desk - {i});
        if rules.panics(h.obj, op) then w.(desk := map[], panicked := true)
        else if Accepted(rules, w, h, op)
        then Commit(idle, Posted(op), AfterPost(w.current.value.obj, rules.edit(h.obj, op)))
        else idle
  }

  function Run<T(==), Op>(rules: Rules<T, Op>, w: World<T, Op>, actions: seq<Action<T, Op>>): World<T, Op>
    decreases |actions|
  {
    if actions == [] then w else Run(rules, Step(rules, w, actions[0]), actions[1..])
  }

  /** One write done at one stroke on the object as the previous write left it. */
  function Apply<T, Op>(rules: Rules<T, Op>, before: Option<Object<T>>, e: Entry<T, Op>): Option<Object<T>> {
    match e
    case Born(o) => Some(o)
    case Posted(op) => if before.Some? then AfterPost(before.value, rules.edit(before.value, op)) else None
    case Deleted => if before.Some? then AfterDelete(before.value) else None
  }

  /** The reference: the object after the writes of the log, one after the other. */
  function Replay<T, Op>(rules: Rules<T, Op>, log: seq<Entry<T, Op>>): Option<Object<T>> {
    if log == [] then None
    else Apply(rules, Replay(rules, log[..|log| - 1]), log[|log| - 1])
  }

  function Current<T(==), Op>(w: World<T, Op>): Option<Object<T>> {
    if w.current.Some? then Some(w.current.value.obj) else None
  }

  ghost predicate Inv<T, Op>(rules: Rules<T, Op>, w: World<T, Op>) {
    && Replay(rules, w.log) == Current(w)
    && (w.current.Some? ==> w.current.value in w.past && w.current.value.version == |w.log|)
    && (forall h :: h in w.past ==> 1 <= h.version <= |w.log| && Replay(rules, w.log[..h.version]) == Some(h.obj))
    && (forall i :: i in w.desk ==> w.desk[i] in w.past)
  }

  /** What a log said at an earlier version, it still says when it has grown. */
  lemma PastStays<T, Op>(rules: Rules<T, Op>, log: seq<Entry<T, Op>>, e: Entry<T, Op>, n: nat)
    requires n <= |log|
    ensures (log + [e])[..n] == log[..n]
    ensures Replay(rules, (log + [e])[..n]) == Replay(rules, log[..n])
  {
  }

  lemma ReplayGrows<T, Op>(rules: Rules<T, Op>, log: seq<Entry<T, Op>>, e: Entry<T, Op>)
    ensures Replay(rules, log + [e]) == Apply(rules, Replay(rules, log), e)
    ensures Replay(rules, (log + [e])[..|log| + 1]) == Replay(rules, log + [e])
  {
    assert (log + [e])[..|log|] == log;
    assert (log + [e])[..|log| + 1] == log + [e];
  }

  lemma CommitKeepsInv<T, Op>(rules: Rules<T, Op>, w: World<T, Op>, e: Entry<T, Op>, r: Option<Object<T>>)
    requires Inv(rules, w) && r == Apply(rules, Current(w), e)
    ensures Inv(rules, Commit(w, e, r))
  {
    hide Replay, Apply;
    var w' := Commit(w, e, r);
    ReplayGrows(rules, w.log, e);
    forall h | h in w.past ensures 1 <= h.version <= |w'.log| && Replay(rules, w'.log[..h.version]) == Some(h.obj) {
      PastStays(rules, w.log, e, h.version);
    }
  }

  /** A copy at the current version is the current object, however old the fetch. */
  lemma PostKeepsInv<T, Op>(rules: Rules<T, Op>, w: World<T, Op>, i: nat, op: Op)
    requires Inv(rules, w) && i in w.desk && Accepted(rules, w, w.desk[i], op)
    ensures w.desk[i].obj == w.current.value.obj
    ensures Inv(rules, Commit(w.(desk := w.desk - {i}), Posted(op),
                              AfterPost(w.current.value.obj, rules.edit(w.desk[i].obj, op))))
  {
    var h, idle := w.desk[i], w.(desk := w.desk - {i});
    assert w.log[..|w.log|] == w.log;
    assert h.obj == w.current.value.obj;
    CommitKeepsInv(rules, idle, Posted(op), AfterPost(w.current.value.obj, rules.edit(h.obj, op)));
  }

  lemma DeskKeepsInv<T, Op>(rules: Rules<T, Op>, w: World<T, Op>, desk: map<nat, Held<T>>, panicked: bool)
    requires Inv(rules, w) && forall i :: i in desk ==> desk[i] in w.past
    ensures Inv(rules, w.(desk := desk, panicked := panicked))
  {
  }

  lemma StepKeepsInv<T, Op>(rules: Rules<T, Op>, w: World<T, Op>, a: Action<T, Op>)
    requires Inv(rules, w)
    ensures Inv(rules, Step(rules, w, a))
  {
    match a
    case Create(o) => CommitKeepsInv(rules, w, Born(o), Some(o));
    case Fetch(i, h) => if h in w.past { DeskKeepsInv(rules, w, w.desk[i := h], w.panicked); }
    case GiveUp(i) => DeskKeepsInv(rules, w, w.desk - {i}, w.panicked);
    case Delete => CommitKeepsInv(rules, w, Deleted, Apply(rules, Current(w), Deleted));
    case Post(i, op) =>
      DeskKeepsInv(rules, w, w.desk - {i}, w.panicked);
      DeskKeepsInv(rules, w, map[], true);
      if i in w.desk && Accepted(rules, w, w.desk[i], op) {
        PostKeepsInv(rules, w, i, op);
      }
  }

  lemma {:induction false} RunKeepsInv<T, Op>(rules: Rules<T, Op>, w: World<T, Op>, actions: seq<Action<T, Op>>)
    requires Inv(rules, w)
    ensures Inv(rules, Run(rules, w, actions))
    decreases |actions|
  {
    if actions != [] {
      StepKeepsInv(rules, w, actions[0]);
      RunKeepsInv(rules, Step(rules, w, actions[0]), actions[1..]);
    }
  }

  /** In every interleaving of every number of writers, the object is what the accepted writes make
      of it one after the other: none is lost, none is applied to anything but its predecessor's
      result. And every copy any writer holds is such an object of an earlier moment. */
  lemma InterleavingsAreAtomic<T, Op>(rules: Rules<T, Op>, actions: seq<Action<T, Op>>)
    ensures var w := Run(rules, Start(), actions);
      && Replay(rules, w.log) == Current(w)
      && (forall i :: i in w.desk ==>
            && w.desk[i].version <= |w.log|
            && Replay(rules, w.log[..w.desk[i].version]) == Some(w.desk[i].obj))
  {
    RunKeepsInv(rules, Start(), actions);
  }

  /** Some action of the run asked for this write. */
  ghost predicate Asked<T, Op>(e: Entry<T, Op>, actions: seq<Action<T, Op>>) {
    match e
    case Born(o) => Create(o) in actions
    case Posted(op) => exists i :: Post(i, op) in actions
    case Deleted => Delete in actions
  }

  lemma StepLogs<T, Op>(rules: Rules<T, Op>, w: World<T, Op>, a: Action<T, Op>, e: Entry<T, Op>)
    requires e in Step(rules, w, a).log
    ensures e in w.log || Asked(e, [a])
  {
  }

  lemma {:induction false} LogIsAskedFor<T, Op>(rules: Rules<T, Op>, w: World<T, Op>, actions: seq<Action<T, Op>>)
    ensures forall e :: e in Run(rules, w, actions).log ==> e in w.log || Asked(e, actions)
    decreases |actions|
  {
    if actions != [] {
      var next := Step(rules, w, actions[0]);
      LogIsAskedFor(rules, next, actions[1..]);
      forall e | e in Run(rules, w, actions).log && e !in w.log ensures Asked(e, actions) {
        if e in next.log {
          StepLogs(rules, w, actions[0], e);
        }
        assert actions == [actions[0]] + actions[1..];
      }
    }
  }

  // ---------- The server, seen from one object ----------

  /** The world is what the server `s` has been to the object `k`: the n-th write of the log is at the
      server's version `at[n - 1]`, and each has the same copies as the other. */
  ghost predicate Mirrors<T(!new), Op>(w: World<T, Op>, s: Shot<T>, k: Key, at: seq<nat>) {
    && |at| == |w.log| && Rising(at)
    && MirrorsNow(w.current, s, k, at) && MirrorsPast(w.past, s.past, k, at)
  }

  ghost predicate Rising(at: seq<nat>) {
    forall i, j :: 0 <= i < j < |at| ==> at[i] < at[j]
  }

  predicate MirrorsNow<T>(current: Option<Held<T>>, s: Shot<T>, k: Key, at: seq<nat>) {
    match current
    case None => k !in s.objects && k !in s.versions
    case Some(h) =>
      && 1 <= h.version <= |at|
      && k in s.objects && s.objects[k] == h.obj && k in s.versions && s.versions[k] == at[h.version - 1]
  }

  ghost predicate MirrorsPast<T(!new)>(ours: set<Held<T>>, theirs: set<(Key, Held<T>)>, k: Key, at: seq<nat>) {
    && (forall h :: h in ours ==> 1 <= h.version <= |at| && (k, Held(at[h.version - 1], h.obj)) in theirs)
    && (forall h :: (k, h) in theirs ==> CopyOf(ours, at, h))
  }

  ghost predicate CopyOf<T>(ours: set<Held<T>>, at: seq<nat>, h: Held<T>) {
    exists n :: 1 <= n <= |at| && at[n - 1] == h.version && Held(n, h.obj) in ours
  }

  /** The server takes a post exactly when the world does. */
  lemma AcceptedIsAccepted<T(!new), Op>(rules: Rules<T, Op>, w: World<T, Op>, s: Shot<T>, k: Key, at: seq<nat>,
                                        h: Held<T>, op: Op)
    requires Mirrors(w, s, k, at) && h in w.past
    ensures Accepted(rules, w, h, op) <==> Refusal(s, k, Held(at[h.version - 1], rules.edit(h.obj, op))).None?
  {
    assert 1 <= h.version <= |at|;
    hide MirrorsPast, Admissible;
    if w.current.Some? && w.current.value.version != h.version {
      var a, b := w.current.value.version, h.version;
      assert at[a - 1] != at[b - 1];
    }
  }

  /** A write to the object keeps them alike, at whatever new version. */
  lemma WriteMirrors<T(!new), Op>(w: World<T, Op>, s: Shot<T>, k: Key, at: seq<nat>, e: Entry<T, Op>,
                                  r: Option<Object<T>>, n: nat)
    requires Mirrors(w, s, k, at) && forall i :: 0 <= i < |at| ==> at[i] < n
    ensures Mirrors(Commit(w, e, r), WriteShot(s, k, n, r), k, at + [n])
  {
    hide MirrorsPast;
    assert Rising(at + [n]);
    if r.Some? {
      PastMirrors(w.past, s.past, k, at, n, {Held(|at| + 1, r.value)}, {(k, Held(n, r.value))});
    } else {
      assert w.past + {} == w.past && s.past + {} == s.past;
      PastMirrors(w.past, s.past, k, at, n, {}, {});
    }
  }

  lemma PastMirrors<T(!new)>(ours: set<Held<T>>, theirs: set<(Key, Held<T>)>, k: Key, at: seq<nat>, n: nat,
                             added: set<Held<T>>, written: set<(Key, Held<T>)>)
    requires MirrorsPast(ours, theirs, k, at)
    requires forall h :: h in added ==> h.version == |at| + 1 && (k, Held(n, h.obj)) in written
    requires forall h :: (k, h) in written ==> h.version == n && Held(|at| + 1, h.obj) in added
    ensures MirrorsPast(ours + added, theirs + written, k, at + [n])
  {
    forall h | (k, h) in theirs + written ensures CopyOf(ours + added, at + [n], h) {
      if (k, h) in theirs {
        var m :| 1 <= m <= |at| && at[m - 1] == h.version && Held(m, h.obj) in ours;
        assert (at + [n])[m - 1] == h.version && Held(m, h.obj) in ours + added;
      } else {
        assert (at + [n])[|at|] == h.version && Held(|at| + 1, h.obj) in ours + added;
      }
    }
  }

  /** And a write to another object leaves the world as it is. */
  lemma WriteElsewhereMirrors<T(!new), Op>(w: World<T, Op>, s: Shot<T>, k: Key, at: seq<nat>, j: Key,
                                           r: Option<Object<T>>, n: nat)
    requires Mirrors(w, s, k, at) && j != k
    ensures Mirrors(w, WriteShot(s, j, n, r), k, at)
  {
  }

  // ---------- Short runs ----------

  lemma FirstPost<T, Op>(rules: Rules<T, Op>, o: Object<T>, i: nat, op: Op)
    requires !o.deleting && !rules.panics(o, op) && Admissible(o, rules.edit(o, op))
    ensures var w := Step(rules, Step(rules, Step(rules, Start(), Create(o)), Fetch(i, Held(1, o))), Post(i, op));
      AfterPost(o, rules.edit(o, op)).Some? ==> Held(2, AfterPost(o, rules.edit(o, op)).value) in w.past
  {
  }

  lemma FetchThenPost<T, Op>(rules: Rules<T, Op>, w: World<T, Op>, i: nat, h: Held<T>, op: Op)
    requires h in w.past && rules.panics(h.obj, op)
    ensures Step(rules, Step(rules, w, Fetch(i, h)), Post(i, op)).panicked
  {
  }

  lemma FiveSteps<T, Op>(rules: Rules<T, Op>, a: Action<T, Op>, b: Action<T, Op>, c: Action<T, Op>,
                         d: Action<T, Op>, e: Action<T, Op>)
    ensures Run(rules, Start(), [a, b, c, d, e])
            == Step(rules, Step(rules, Step(rules, Step(rules, Step(rules, Start(), a), b), c), d), e)
  {
    var w1 := Step(rules, Start(), a);
    var w2 := Step(rules, w1, b);
    var w3 := Step(rules, w2, c);
    assert [a] + [b, c, d, e] == [a, b, c, d, e];
    RunUnfolds(rules, Start(), a, [b, c, d, e]);
    assert [b] + [c, d, e] == [b, c, d, e];
    RunUnfolds(rules, w1, b, [c, d, e]);
    assert [c] + [d, e] == [c, d, e];
    RunUnfolds(rules, w2, c, [d, e]);
    assert [d] + [e] == [d, e];
    RunUnfolds(rules, w3, d, [e]);
    assert [e] + [] == [e];
    RunUnfolds(rules, Step(rules, w3, d), e, []);
  }

  lemma RunUnfolds<T, Op>(rules: Rules<T, Op>, w: World<T, Op>, a: Action<T, Op>, rest: seq<Action<T, Op>>)
    ensures Run(rules, w, [a] + rest) == Run(rules, Step(rules, w, a), rest)
  {
  }
}
