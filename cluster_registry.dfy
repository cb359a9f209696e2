/** `getClusterConfig`: find a named cluster in the static cluster registry
    (`kubernetes.clusterLocatorMethods`). */
module ClusterRegistry {
  import opened Wrappers

  /** One entry of a locator's `clusters` list. */
  datatype Cluster = Cluster(
    name: string,
    url: string,
    caData: string,
    skipTLSVerify: bool,
    serviceAccountToken: string)

  /** One entry of `kubernetes.clusterLocatorMethods`; `kind` is its `type`
      field. */
  datatype Locator = Locator(kind: string, clusters: seq<Cluster>)

  type Registry = seq<Locator>

  const CONFIG_LOCATOR: string := "config"

  /** Cluster `j` of locator `i` is a config-locator cluster named `name`. */
  predicate IsMatch(registry: Registry, name: string, i: int, j: int) {
    && 0 <= i < |registry|
    && registry[i].kind == CONFIG_LOCATOR
    && 0 <= j < |registry[i].clusters|
    && registry[i].clusters[j].name == name
  }

  /** `clusters.find(c => c.name === name)`. */
  function FindByName(clusters: seq<Cluster>, name: string): (r: Option<Cluster>)
    ensures r.Some? ==> r.value.name == name
  {
    FindFirst(clusters, (c: Cluster) => c.name == name)
  }

  /** The first config-locator cluster named `name`, locators scanned in
      order and each locator's clusters in order. */
  function FindCluster(name: string, registry: Registry): (r: Option<Cluster>)
    ensures r.Some? ==> r.value.name == name
  {
    if registry == [] then None
    else if registry[0].kind == CONFIG_LOCATOR && FindByName(registry[0].clusters, name).Some? then
      FindByName(registry[0].clusters, name)
    else FindCluster(name, registry[1..])
  }

  /** The locators whose `type` is `config`, in order. */
  function ConfigLocators(registry: Registry): (r: Registry)
    ensures forall i :: 0 <= i < |r| ==> r[i].kind == CONFIG_LOCATOR
    ensures forall l :: l in r <==> l in registry && l.kind == CONFIG_LOCATOR
    ensures |r| <= |registry|
  {
    if registry == [] then []
    else (if registry[0].kind == CONFIG_LOCATOR then [registry[0]] else []) + ConfigLocators(registry[1..])
  }

  function NotFoundMessage(name: string): string {
    "Cluster with name " + name + " not found"
  }

  /** `getClusterConfig(name, config)`: collect, per config locator, its first
      cluster named `name`, then return the first one collected or throw. */
  method GetClusterConfig(name: string, registry: Registry) returns (r: Result<Cluster, string>)
    ensures r.Success? <==> FindCluster(name, registry).Some?
    ensures r.Success? ==> r.value == FindCluster(name, registry).value
    ensures r.Failure? ==> r.error == NotFoundMessage(name)
  {
    var clusterConfigs := ConfigLocators(registry);
    var clusters: seq<Cluster> := [];
    for i := 0 to |clusterConfigs|
      invariant clusters == [] <==> FindCluster(name, clusterConfigs[..i]).None?
      invariant clusters != [] ==> clusters[0] == FindCluster(name, clusterConfigs[..i]).value
    {
      var cluster := FindByName(clusterConfigs[i].clusters, name);
      if cluster.Some? {
        clusters := clusters + [cluster.value];
      }
      FindClusterSnoc(name, clusterConfigs[..i], clusterConfigs[i]);
      assert clusterConfigs[..i + 1] == clusterConfigs[..i] + [clusterConfigs[i]];
    }
    assert clusterConfigs[..|clusterConfigs|] == clusterConfigs;
    FindClusterConfigLocators(name, registry);
    if |clusters| == 0 {
      return Failure(NotFoundMessage(name));
    }
    return Success(clusters[0]);
  }

  // ---------------------------------------------------------------------
  // Properties
  // ---------------------------------------------------------------------

  /** Scanning one more locator changes the answer only if none was found. */
  lemma {:induction false} FindClusterSnoc(name: string, registry: Registry, l: Locator)
    ensures FindCluster(name, registry + [l]) ==
      if FindCluster(name, registry).Some? then FindCluster(name, registry) else FindCluster(name, [l])
  {
    if registry == [] {
      assert registry + [l] == [l];
    } else {
      assert (registry + [l])[1..] == registry[1..] + [l];
      FindClusterSnoc(name, registry[1..], l);
    }
  }

  /** Filtering out the non-config locators first does not change the
      answer. */
  lemma {:induction false} FindClusterConfigLocators(name: string, registry: Registry)
    ensures FindCluster(name, ConfigLocators(registry)) == FindCluster(name, registry)
  {
    if registry != [] {
      FindClusterConfigLocators(name, registry[1..]);
      if registry[0].kind == CONFIG_LOCATOR {
        assert ConfigLocators(registry) == [registry[0]] + ConfigLocators(registry[1..]);
        assert ConfigLocators(registry)[1..] == ConfigLocators(registry[1..]);
      } else {
        assert ConfigLocators(registry) == ConfigLocators(registry[1..]);
      }
    }
  }

  /** The filter keeps the order: filtering a concatenation concatenates
      the filtered parts. */
  lemma {:induction false} ConfigLocatorsAppend(a: Registry, b: Registry)
    ensures ConfigLocators(a + b) == ConfigLocators(a) + ConfigLocators(b)
  {
    if a != [] {
      assert (a + b)[1..] == a[1..] + b;
      ConfigLocatorsAppend(a[1..], b);
    } else {
      assert a + b == b;
    }
  }

  lemma {:induction false} FindByNameFirst(clusters: seq<Cluster>, name: string, j: nat)
    requires j < |clusters| && clusters[j].name == name
    requires forall j' :: 0 <= j' < j ==> clusters[j'].name != name
    ensures FindByName(clusters, name) == Some(clusters[j])
  {
    if j > 0 {
      FindByNameFirst(clusters[1..], name, j - 1);
    }
  }

  lemma {:induction false} FindByNameNone(clusters: seq<Cluster>, name: string)
    ensures FindByName(clusters, name).None? <==> forall j :: 0 <= j < |clusters| ==> clusters[j].name != name
  {
    if clusters != [] {
      FindByNameNone(clusters[1..], name);
      assert forall j :: 1 <= j < |clusters| ==> clusters[j] == clusters[1..][j - 1];
    }
  }

  /** The lookup fails exactly when no config locator holds a cluster with
      exactly that name. */
  lemma {:induction false} FindClusterNoneIff(name: string, registry: Registry)
    ensures FindCluster(name, registry).None? <==>
      forall i, j :: !IsMatch(registry, name, i, j)
  {
    if registry != [] {
      FindClusterNoneIff(name, registry[1..]);
      FindByNameNone(registry[0].clusters, name);
      if registry[0].kind == CONFIG_LOCATOR && FindByName(registry[0].clusters, name).Some? {
        var j :| 0 <= j < |registry[0].clusters| && registry[0].clusters[j].name == name;
        assert IsMatch(registry, name, 0, j);
      }
      forall i, j | IsMatch(registry, name, i, j) && i > 0 ensures IsMatch(registry[1..], name, i - 1, j) {
        assert registry[1..][i - 1] == registry[i];
      }
      forall i, j | IsMatch(registry[1..], name, i, j) ensures IsMatch(registry, name, i + 1, j) {
        assert registry[1..][i] == registry[i + 1];
      }
    }
  }

  /** The lookup returns the lexicographically first match: the earliest
      config locator holding the name, and within it the earliest cluster.
      Later duplicates are ignored. */
  lemma {:induction false} FindClusterFirst(name: string, registry: Registry, i: nat, j: nat)
    requires IsMatch(registry, name, i, j)
    requires forall i', j' :: IsMatch(registry, name, i', j') ==> i < i' || (i == i' && j <= j')
    ensures FindCluster(name, registry) == Some(registry[i].clusters[j])
  {
    if i == 0 {
      forall j' | 0 <= j' < j ensures registry[0].clusters[j'].name != name {
        assert !IsMatch(registry, name, 0, j');
      }
      FindByNameFirst(registry[0].clusters, name, j);
    } else {
      if registry[0].kind == CONFIG_LOCATOR {
        FindByNameNone(registry[0].clusters, name);
        forall j' | 0 <= j' < |registry[0].clusters| ensures registry[0].clusters[j'].name != name {
          assert !IsMatch(registry, name, 0, j');
        }
      }
      assert registry[1..][i - 1] == registry[i];
      forall i', j' | IsMatch(registry[1..], name, i', j') ensures i - 1 < i' || (i - 1 == i' && j <= j') {
        assert registry[1..][i'] == registry[i' + 1];
        assert IsMatch(registry, name, i' + 1, j');
      }
      FindClusterFirst(name, registry[1..], i - 1, j);
    }
  }
}
