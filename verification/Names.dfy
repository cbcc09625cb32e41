/** Resource names and registry keys (pilotset_resourcenames.go). */
module Names {

  const COLLECTOR_TOKENS := "-collector-tokens"
  const DATA := "-data"
  const TOKENS := "-tokens"
  const COLLECTOR := "-collector"

  /** The suffixes of the three Secrets that belong to one GlideinSet. */
  const SECRET_SUFFIXES: set<string> := {COLLECTOR_TOKENS, DATA, TOKENS}

  function NameFor(suffix: string, owner: string): string {
    owner + suffix
  }

  function NamespacedName(namespace: string, name: string): string {
    namespace + "/" + name
  }

  /** With no slash in a namespace, the registry key identifies the resource. */
  lemma NamespacedNameInjective(ns1: string, n1: string, ns2: string, n2: string)
    requires '/' !in ns1 && '/' !in ns2
    ensures NamespacedName(ns1, n1) == NamespacedName(ns2, n2) <==> ns1 == ns2 && n1 == n2
  {
    var a, b := NamespacedName(ns1, n1), NamespacedName(ns2, n2);
    if a == b {
      assert a[|ns1|] == '/' && b[|ns2|] == '/';
      assert forall i :: 0 <= i < |ns1| ==> a[i] == ns1[i];
      assert forall i :: 0 <= i < |ns2| ==> b[i] == ns2[i];
      assert |ns1| == |ns2|;
      assert ns1 == a[..|ns1|] && ns2 == b[..|ns2|];
      assert n1 == a[|ns1| + 1..] && n2 == b[|ns2| + 1..];
    }
  }

  /** Without that restriction two different resources can share a key. */
  lemma SlashBreaksInjectivity()
    ensures NamespacedName("a/b", "c") == NamespacedName("a", "b/c")
    ensures ("a/b", "c") != ("a", "b/c")
  {
  }

  lemma SameSuffix(a: string, b: string, s: string)
    ensures NameFor(s, a) == NameFor(s, b) ==> a == b
  {
    if NameFor(s, a) == NameFor(s, b) {
      assert |a| == |b|;
      assert a == NameFor(s, a)[..|a|] && b == NameFor(s, b)[..|b|];
    }
  }

  /** "-data" and a tokens suffix end in different letters. */
  lemma DataNeverClashes(a: string, b: string, t: string)
    requires t == TOKENS || t == COLLECTOR_TOKENS
    ensures NameFor(DATA, a) != NameFor(t, b)
  {
    var x, y := NameFor(DATA, a), NameFor(t, b);
    assert x[|x| - 1] == 'a';
    assert y[|y| - 1] == 's';
  }

  /** Where the two tokens Secrets of two GlideinSets meet. */
  lemma TokensClash(a: string, b: string)
    ensures NameFor(TOKENS, a) == NameFor(COLLECTOR_TOKENS, b) <==> a == NameFor(COLLECTOR, b)
  {
    assert COLLECTOR_TOKENS == COLLECTOR + TOKENS;
    assert NameFor(COLLECTOR_TOKENS, b) == NameFor(TOKENS, NameFor(COLLECTOR, b));
    SameSuffix(a, NameFor(COLLECTOR, b), TOKENS);
  }

  /** Inside one namespace, two different (set, suffix) pairs name the same Secret exactly when
      one set is called like the other plus "-collector". */
  lemma SecretNamesClashExactly(a: string, s: string, b: string, t: string)
    requires s in SECRET_SUFFIXES && t in SECRET_SUFFIXES
    requires (a, s) != (b, t)
    ensures NameFor(s, a) == NameFor(t, b) <==>
            || (s == TOKENS && t == COLLECTOR_TOKENS && a == NameFor(COLLECTOR, b))
            || (t == TOKENS && s == COLLECTOR_TOKENS && b == NameFor(COLLECTOR, a))
  {
    assert |TOKENS| == 7 && |COLLECTOR_TOKENS| == 17 && |DATA| == 5;
    if s == t {
      SameSuffix(a, b, s);
    } else if s == DATA {
      DataNeverClashes(a, b, t);
    } else if t == DATA {
      DataNeverClashes(b, a, s);
    } else {
      TokensClash(a, b);
      TokensClash(b, a);
    }
  }
}
