/** Histories of git turns at changing commits, of any number of pollers, with other writers at work
    between any two of them (glideinmanager_client.go, pilotset_schemas.go). */
module GitHistory {
  import opened Kube
  import opened GlideinSets
  import opened ManagerRegistry
  import opened PollPass

  /** What the manifest file says at each commit; nothing if it cannot be read. */
  type Repository = string -> Option<seq<Manifest>>

  /** The part of a manifest entry that comes from the file. */
  function ConfigOf(m: Manifest): Manifest {
    m.(repoPath := "", currentCommit := "", previousCommit := "")
  }

  /** The manifest is the first entry for the namespace in the file at its own commit. */
  predicate Current(repo: Repository, namespace: string, m: Manifest) {
    var entries := repo(m.currentCommit);
    && entries.Some?
    && FirstFor(entries.value, namespace).Some?
    && ConfigOf(FirstFor(entries.value, namespace).value) == ConfigOf(m)
  }

  ghost predicate Coherent(repo: Repository, st: Objects<SetBody>) {
    forall k :: k in st && st[k].body.manifest.Some? ==> Current(repo, k.namespace, st[k].body.manifest.value)
  }

  /** At the commit, and with what the file says there. */
  predicate Synced(repo: Repository, u: RepoUpdate, k: Key, o: SetObject) {
    InSync(u, o) && Current(repo, k.namespace, o.body.manifest.value)
  }

  /** A handler's turn, whatever its reads show; or other writers do anything but write manifests. */
  datatype Event =
    | Turn(u: RepoUpdate, h: Handler, l: GitLuck)
    | Elsewhere

  ghost predicate Happens(repo: Repository, e: Event, s: Shot<SetBody>, s': Shot<SetBody>) {
    match e
    case Turn(u, h, l) =>
      && u.manifests == repo(u.currentCommit)
      && At(s'.objects, SetOf(h)) == GitOutcome(u, h, l, s)
      && (forall k :: k != SetOf(h) ==> At(s'.objects, k) == At(s.objects, k))
    case Elsewhere =>
      forall k :: k in s'.objects ==>
        s'.objects[k].body.manifest == if k in s.objects then s.objects[k].body.manifest else None
  }

  ghost predicate History(repo: Repository, shots: seq<Shot<SetBody>>, events: seq<Event>) {
    && |shots| == |events| + 1 && Coherent(repo, shots[0].objects)
    && (forall i :: 0 <= i < |shots| ==> Sane(shots[i]))
    && (forall i :: 0 <= i < |events| ==> Happens(repo, events[i], shots[i], shots[i + 1]))
  }

  lemma StepKeepsCoherent(repo: Repository, e: Event, s: Shot<SetBody>, s': Shot<SetBody>)
    requires Sane(s) && Happens(repo, e, s, s') && Coherent(repo, s.objects)
    ensures Coherent(repo, s'.objects)
  {
    forall k | k in s'.objects && s'.objects[k].body.manifest.Some?
      ensures Current(repo, k.namespace, s'.objects[k].body.manifest.value)
    {
      if e.Turn? && k == SetOf(e.h) {
        GitTurnIsAtomic(e.u, e.h, e.l, s);
      } else if e.Turn? {
        assert At(s'.objects, k) == At(s.objects, k);
      }
    }
  }

  /** At every moment of every history, whatever calls failed and whatever reads were old, each stored
      manifest is the first entry for its namespace at the commit it carries. */
  lemma {:induction false} HistoryIsCoherent(repo: Repository, shots: seq<Shot<SetBody>>, events: seq<Event>, i: nat)
    requires History(repo, shots, events) && i < |shots|
    ensures Coherent(repo, shots[i].objects)
  {
    if i > 0 {
      HistoryIsCoherent(repo, shots, events, i - 1);
      StepKeepsCoherent(repo, events[i - 1], shots[i - 1], shots[i]);
    }
  }

  /** From the i-th event up to the j-th, the resource is there and has no other turn. */
  ghost predicate Rests(shots: seq<Shot<SetBody>>, events: seq<Event>, k: Key, i: nat, j: nat)
    requires i < j < |shots| && |shots| == |events| + 1
  {
    && (forall n :: i < n <= j ==> k in shots[n].objects)
    && (forall n :: i < n < j && events[n].Turn? ==> SetOf(events[n].h) != k)
  }

  lemma ManifestRestsOnce(repo: Repository, e: Event, s: Shot<SetBody>, s': Shot<SetBody>, k: Key)
    requires Happens(repo, e, s, s') && k in s.objects && k in s'.objects && (e.Turn? ==> SetOf(e.h) != k)
    ensures s'.objects[k].body.manifest == s.objects[k].body.manifest
  {
    if e.Turn? {
      assert At(s'.objects, k) == At(s.objects, k);
    }
  }

  lemma {:induction false} ManifestRests(repo: Repository, shots: seq<Shot<SetBody>>, events: seq<Event>, k: Key,
                                         i: nat, j: nat)
    requires History(repo, shots, events) && i < j < |shots| && Rests(shots, events, k, i, j)
    ensures shots[j].objects[k].body.manifest == shots[i + 1].objects[k].body.manifest
  {
    hide Happens, Coherent, Sane, SetOf;
    if i + 1 < j {
      ManifestRests(repo, shots, events, k, i, j - 1);
      ManifestRestsOnce(repo, events[j - 1], shots[j - 1], shots[j], k);
    }
  }

  /** After a turn without an error in the log, the resource is in sync until its next turn, as long as
      it exists, if and only if no read misled the turn. */
  lemma SyncedUntilNextTurn(repo: Repository, shots: seq<Shot<SetBody>>, events: seq<Event>, i: nat, j: nat)
    requires History(repo, shots, events) && i < j < |shots| && events[i].Turn?
    requires Rests(shots, events, SetOf(events[i].h), i, j)
    requires !Troubled(events[i].u, events[i].h, events[i].l, shots[i])
    ensures Synced(repo, events[i].u, SetOf(events[i].h), shots[j].objects[SetOf(events[i].h)]) <==>
            !GitMisled(events[i].u, events[i].h, events[i].l, shots[i])
  {
    var e, k := events[i], SetOf(events[i].h);
    assert Happens(repo, e, shots[i], shots[i + 1]) && Sane(shots[i]);
    assert k in shots[i + 1].objects;
    GitTurnSyncs(e.u, e.h, e.l, shots[i]);
    ManifestRests(repo, shots, events, k, i, j);
    HistoryIsCoherent(repo, shots, events, j);
  }

  /** After a pass at one commit that nobody interrupts, every registered resource has had trouble in it,
      has vanished, or is in sync unless a read misled its turn. */
  lemma RegisteredAreSynced(repo: Repository, u: RepoUpdate, handlers: Handlers, luck: string -> GitLuck,
                            s: Shot<SetBody>, st': Objects<SetBody>, n: string)
    requires Sane(s) && Coherent(repo, s.objects) && u.manifests == repo(u.currentCommit)
    requires PassEnds(s.objects, st', SetKeys(handlers), GitOutcomes(u, handlers, luck, s))
    requires n in handlers
    ensures var k := SetOf(handlers[n]);
      || TroubledAt(u, s, handlers, luck, n)
      || k !in st'
      || (Synced(repo, u, k, st'[k]) <==> !GitMisled(u, handlers[n], luck(n), s))
  {
    var k := SetOf(handlers[n]);
    assert SetKeys(handlers)[n] == k;
    GitTurnIsAtomic(u, handlers[n], luck(n), s);
    if !TroubledAt(u, s, handlers, luck, n) && k in st' {
      GitPassSyncs(u, handlers, luck, s, st', n);
    }
  }
}
