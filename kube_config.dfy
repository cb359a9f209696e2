/** The part of the Kubernetes client's `KubeConfig` object that the apply
    action drives: it starts empty and is filled in step by step, either from
    the process's default configuration or with one cluster, one user and
    one context for a named cluster. */
module KubeClient {
  import opened Wrappers

  datatype ClusterEntry = ClusterEntry(name: string, caData: string, server: string, skipTLSVerify: bool)

  datatype User = User(name: string, token: string)

  datatype Context = Context(name: string, cluster: string, user: string)

  /** Where, and as whom, API clients made from a configuration send their
      requests. */
  datatype Endpoint =
    | Ambient  // the process's default configuration (kubeconfig file or in-cluster account)
    | Bearer(context: string, server: string, caData: string, skipTLSVerify: bool, user: string, token: string)

  class KubeConfig {
    var clusters: seq<ClusterEntry>
    var users: seq<User>
    var contexts: seq<Context>
    var currentContext: string
    var loadedDefault: bool

    /** `new KubeConfig()`. */
    constructor ()
      ensures clusters == [] && users == [] && contexts == []
      ensures currentContext == "" && !loadedDefault
    {
      clusters, users, contexts := [], [], [];
      currentContext, loadedDefault := "", false;
    }

    method AddCluster(c: ClusterEntry)
      modifies this
      ensures clusters == old(clusters) + [c]
      ensures users == old(users) && contexts == old(contexts)
      ensures currentContext == old(currentContext) && loadedDefault == old(loadedDefault)
    {
      clusters := clusters + [c];
    }

    method AddUser(u: User)
      modifies this
      ensures users == old(users) + [u]
      ensures clusters == old(clusters) && contexts == old(contexts)
      ensures currentContext == old(currentContext) && loadedDefault == old(loadedDefault)
    {
      users := users + [u];
    }

    method AddContext(c: Context)
      modifies this
      ensures contexts == old(contexts) + [c]
      ensures clusters == old(clusters) && users == old(users)
      ensures currentContext == old(currentContext) && loadedDefault == old(loadedDefault)
    {
      contexts := contexts + [c];
    }

    method SetCurrentContext(name: string)
      modifies this
      ensures currentContext == name
      ensures clusters == old(clusters) && users == old(users) && contexts == old(contexts)
      ensures loadedDefault == old(loadedDefault)
    {
      currentContext := name;
    }

    /** `loadFromDefault()`: what it reads (kubeconfig files, in-cluster
        service-account files) lies outside the model; it is recorded as a
        switch to the ambient endpoint. */
    method LoadFromDefault()
      modifies this
      ensures loadedDefault
      ensures clusters == old(clusters) && users == old(users) && contexts == old(contexts)
      ensures currentContext == old(currentContext)
    {
      loadedDefault := true;
    }

    /** The endpoint API clients made from this configuration use: the
        current context, its cluster and its user, looked up by name; none if
        one of them is missing. */
    function CurrentEndpoint(): (r: Option<Endpoint>)
      reads this
      ensures loadedDefault ==> r == Some(Ambient)
      ensures !loadedDefault && (forall i :: 0 <= i < |contexts| ==> contexts[i].name != currentContext) ==> r.None?
      ensures !loadedDefault && r.Some? ==>
        && r.value.Bearer?
        && r.value.context == currentContext
        && (exists ctx :: ctx in contexts && ctx.name == currentContext
              && (exists cl :: cl in clusters && cl.name == ctx.cluster && cl.server == r.value.server
                    && cl.caData == r.value.caData && cl.skipTLSVerify == r.value.skipTLSVerify)
              && (exists u :: u in users && u.name == ctx.user && u.name == r.value.user && u.token == r.value.token))
    {
      if loadedDefault then Some(Ambient)
      else
        var current := currentContext;
        var ctx := FindFirst(contexts, (c: Context) => c.name == current);
        if ctx.None? then None
        else
          var cluster := FindFirst(clusters, (c: ClusterEntry) => c.name == ctx.value.cluster);
          var user := FindFirst(users, (u: User) => u.name == ctx.value.user);
          if cluster.None? || user.None? then None
          else
            var cl := cluster.value;
            Some(Bearer(currentContext, cl.server, cl.caData, cl.skipTLSVerify, user.value.name, user.value.token))
    }
  }
}
