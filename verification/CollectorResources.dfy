/** The collector's own resources, among them the Secret with its signing key
    (glideinsetcollection_controller.go, collector_schemas.go). */
module CollectorResources {
  import opened Kube

  /** A rendered manifest: where it goes and what it says. Rendering the signing-key Secret draws a
      fresh random key, so two reconciles never render the same one. */
  type Rendered = (Key, Object<string>)

  datatype Attempt = Attempt(manifests: seq<Rendered>, faults: nat -> Fault<string>)

  /** From position `from` on, each state of the trail contains the one before it. */
  ghost predicate OnlyGrows(trail: seq<Objects<string>>, from: nat) {
    forall i :: 0 < from <= i < |trail| ==> Extends(trail[i - 1], trail[i])
  }

  ghost predicate Extends(a: Objects<string>, b: Objects<string>) {
    forall k :: k in a ==> k in b && b[k] == a[k]
  }

  lemma {:induction false} GrowthIsStable(trail: seq<Objects<string>>, from: nat, i: nat, j: nat)
    requires 0 < from && OnlyGrows(trail, from)
    requires from - 1 <= i <= j < |trail|
    ensures Extends(trail[i], trail[j])
    decreases j
  {
    if i < j {
      GrowthIsStable(trail, from, i, j - 1);
      assert Extends(trail[j - 1], trail[j]);
    }
  }

  lemma GrowthStep(trail: seq<Objects<string>>, now: Objects<string>, from: nat)
    requires 0 < |trail| && OnlyGrows(trail, from) && Extends(trail[|trail| - 1], now)
    ensures OnlyGrows(trail + [now], from)
  {
  }

  lemma GrowthChains(trail: seq<Objects<string>>, longer: seq<Objects<string>>, from: nat)
    requires 0 < |trail| && OnlyGrows(trail, from) && trail <= longer && OnlyGrows(longer, |trail|)
    ensures OnlyGrows(longer, from)
  {
  }

  ghost predicate Drawn(manifests: seq<Rendered>, k: Key, o: Object<string>) {
    (k, o) in manifests
  }

  /** `s` is `base` with some of the manifests added. */
  ghost predicate Added(s: Objects<string>, base: Objects<string>, manifests: seq<Rendered>) {
    Extends(base, s) && forall k :: k in s ==> k in base || Drawn(manifests, k, s[k])
  }

  lemma AddedStep(s: Objects<string>, base: Objects<string>, manifests: seq<Rendered>, k: Key, o: Object<string>)
    requires Added(s, base, manifests) && k !in s && (k, o) in manifests
    ensures Added(s[k := o], base, manifests) && Extends(s, s[k := o])
  {
  }

  /** Everything in `s` was in `base` or was drawn in one of the attempts. */
  ghost predicate Sourced(s: Objects<string>, base: Objects<string>, attempts: seq<Attempt>) {
    forall k :: k in s ==> k in base || exists a :: a in attempts && Drawn(a.manifests, k, s[k])
  }

  ghost predicate Present(s: Objects<string>, manifests: seq<Rendered>) {
    forall m :: m in manifests ==> m.0 in s
  }

  method CreateManifest(api: ApiServer<string>, m: Rendered, onGet: Fault<string>, onPut: Fault<string>,
                        ghost from: nat)
    returns (r: Result<()>)
    requires api.Valid() && !m.1.deleting && OnlyGrows(api.trail, from)
    modifies api
    ensures api.Valid() && old(api.trail) <= api.trail && OnlyGrows(api.trail, from)
    ensures api.objects == old(api.objects) || (m.0 !in old(api.objects) && api.objects == old(api.objects)[m.0 := m.1])
    ensures r.Ok? && !Recalls(onGet) ==> m.0 in api.objects
    ensures onGet == Deliver && (m.0 in old(api.objects) || onPut == Deliver) ==> r.Ok?
  {
    ghost var trail := api.trail;
    r := CreateIfNotExists(api, m.0, m.1, onGet, onPut);
    if api.trail != trail {
      GrowthStep(trail, api.objects, from);
    }
  }

  method CreateCollectorForPilotSet(api: ApiServer<string>, a: Attempt) returns (r: Result<()>)
    requires api.Valid()
    requires forall m :: m in a.manifests ==> !m.1.deleting
    modifies api
    ensures api.Valid() && old(api.trail) <= api.trail
    ensures OnlyGrows(api.trail, |old(api.trail)|)
    ensures Added(api.objects, old(api.objects), a.manifests)
    ensures r.Ok? && (forall i :: !Recalls(a.faults(i))) ==> Present(api.objects, a.manifests)
    ensures (forall i :: a.faults(i) == Deliver) ==> r.Ok?
  {
    r := Ok(());
    for i := 0 to |a.manifests|
      invariant api.Valid() && r.Ok? && old(api.trail) <= api.trail
      invariant OnlyGrows(api.trail, |old(api.trail)|)
      invariant Added(api.objects, old(api.objects), a.manifests)
      invariant (forall i :: !Recalls(a.faults(i))) ==> Present(api.objects, a.manifests[..i])
    {
      var m := a.manifests[i];
      ghost var before := api.objects;
      r := CreateManifest(api, m, a.faults(2 * i), a.faults(2 * i + 1), |old(api.trail)|);
      assert (m.0, m.1) in a.manifests;
      if api.objects != before {
        AddedStep(before, old(api.objects), a.manifests, m.0, m.1);
      }
      if r.Err? {
        return;
      }
      assert a.manifests[..i + 1] == a.manifests[..i] + [m];
    }
    assert a.manifests[..|a.manifests|] == a.manifests;
  }

  lemma SourcedStep(s: Objects<string>, next: Objects<string>, base: Objects<string>, attempts: seq<Attempt>,
                    a: Attempt)
    requires Sourced(s, base, attempts) && a in attempts && Added(next, s, a.manifests)
    ensures Sourced(next, base, attempts)
  {
  }

  /** All that the served attempts rendered is there. */
  ghost predicate ServedArePresent(s: Objects<string>, attempts: seq<Attempt>) {
    forall a :: a in attempts && (forall i :: a.faults(i) == Deliver) ==> Present(s, a.manifests)
  }

  lemma OneMorePresent(s: Objects<string>, next: Objects<string>, attempts: seq<Attempt>, n: nat)
    requires n < |attempts| && ServedArePresent(s, attempts[..n]) && Extends(s, next)
    requires (forall i :: attempts[n].faults(i) == Deliver) ==> Present(next, attempts[n].manifests)
    ensures ServedArePresent(next, attempts[..n + 1])
  {
    assert attempts[..n + 1] == attempts[..n] + [attempts[n]];
  }

  /** Over any run of reconciles, each with its own freshly drawn key and each failing anywhere: a
      resource once stored, the signing key among them, is the same in every later state, and it is
      one that some reconcile of the run drew. */
  method RunReconciles(api: ApiServer<string>, attempts: seq<Attempt>)
    requires api.Valid()
    requires forall a, m :: a in attempts && m in a.manifests ==> !m.1.deleting
    modifies api
    ensures api.Valid() && old(api.trail) <= api.trail
    ensures forall i, j :: |old(api.trail)| - 1 <= i <= j < |api.trail| ==> Extends(api.trail[i], api.trail[j])
    ensures Sourced(api.objects, old(api.objects), attempts)
    ensures ServedArePresent(api.objects, attempts)
  {
    for n := 0 to |attempts|
      invariant api.Valid() && old(api.trail) <= api.trail
      invariant OnlyGrows(api.trail, |old(api.trail)|)
      invariant Sourced(api.objects, old(api.objects), attempts)
      invariant ServedArePresent(api.objects, attempts[..n])
    {
      ghost var trail, before := api.trail, api.objects;
      var _ := CreateCollectorForPilotSet(api, attempts[n]);
      GrowthChains(trail, api.trail, |old(api.trail)|);
      SourcedStep(before, api.objects, old(api.objects), attempts, attempts[n]);
      OneMorePresent(before, api.objects, attempts, n);
    }
    assert attempts[..|attempts|] == attempts;
    forall i: nat, j: nat | |old(api.trail)| - 1 <= i <= j < |api.trail| ensures Extends(api.trail[i], api.trail[j]) {
      GrowthIsStable(api.trail, |old(api.trail)|, i, j);
    }
  }
}
