/** The `cnoe:kubernetes:apply` action: pick the manifest source, derive the
    resource's group, version and plural, set up the client configuration,
    then server-side-apply the manifest through the core or the
    custom-resource API. Every API request is recorded as a `PatchCall`; the
    server's answer to each is an input (`respond`). */
module K8sApply {
  import opened Wrappers
  import opened JsValues
  import opened ClusterRegistry
  import opened ResourceIdentity
  import opened KubeClient

  /** The action's input (`manifestString`, `manifestObject`, `manifestPath`,
      `namespaced`, `clusterName`). */
  datatype Input = Input(
    manifestString: Option<string>,
    manifestObject: Option<Value>,
    manifestPath: Option<string>,
    namespaced: bool,
    clusterName: Option<string>)

  /** An optional string input is truthy when present and non-empty. */
  predicate IsTruthyString(s: Option<string>) {
    s.Some? && s.value != ""
  }

  predicate IsTruthyValue(v: Option<Value>) {
    v.Some? && Truthy(v.value)
  }

  datatype ManifestSource =
    | FromString(text: string)
    | FromObject(obj: Value)
    | FromPath(path: Option<string>)

  datatype Failure =
    | DecodeError(reason: string)       // YAML parsing or reading the manifest file failed
    | TypeError(message: string)        // a JavaScript TypeError from a property read on the manifest
    | ClusterNotFound(message: string)
    | UnsupportedKind(message: string)
    | PatchFailed(call: PatchCall, body: Value)  // the server's rejection, rethrown

  /** The server-side-apply settings every request carries. */
  datatype ApplyOptions = ApplyOptions(fieldManager: string, force: bool, contentType: string)

  const SERVER_SIDE_APPLY := ApplyOptions("backstage", true, "application/apply-patch+yaml")

  const SCAFFOLDER_USER: string := "scaffolder-user"

  datatype PatchCall =
    | PatchNamespacedConfigMap(endpoint: Endpoint, name: Value, namespace: Value, body: Value, options: ApplyOptions)
    | PatchNamespacedCustomObject(
        endpoint: Endpoint, group: string, version: string, namespace: Value,
        plural: string, name: Value, body: Value, options: ApplyOptions)
    | PatchClusterCustomObject(
        endpoint: Endpoint, group: string, version: string,
        plural: string, name: Value, body: Value, options: ApplyOptions)

  /** The server's answer to one request. */
  datatype Reply = Applied(body: Value) | Rejected(body: Value)

  /** The requests issued, in order, and what the handler returns or throws. */
  datatype Outcome = Outcome(calls: seq<PatchCall>, result: Result<Value, Failure>)

  datatype Identity = Identity(kind: string, group: string, version: Option<string>, plural: string)

  // ---------------------------------------------------------------------
  // Manifest source
  // ---------------------------------------------------------------------

  /** A truthy `manifestString` wins, then a truthy `manifestObject`, and
      otherwise `manifestPath` is used, present or not. */
  function SelectSource(input: Input): (r: ManifestSource)
    ensures r.FromString? <==> IsTruthyString(input.manifestString)
    ensures r.FromObject? <==> !IsTruthyString(input.manifestString) && IsTruthyValue(input.manifestObject)
    ensures r.FromString? ==> r.text == input.manifestString.value
    ensures r.FromObject? ==> r.obj == input.manifestObject.value
    ensures r.FromPath? ==> r.path == input.manifestPath
  {
    if IsTruthyString(input.manifestString) then FromString(input.manifestString.value)
    else if IsTruthyValue(input.manifestObject) then FromObject(input.manifestObject.value)
    else FromPath(input.manifestPath)
  }

  /** The decoded manifest. `parse` stands for `YAML.parse`; `readFile` for
      resolving the path inside the workspace and reading the file. */
  function LoadManifest(
    input: Input,
    parse: string -> Result<Value, string>,
    readFile: Option<string> -> Result<string, string>): (r: Result<Value, Failure>)
    ensures SelectSource(input).FromObject? ==> r == Success(input.manifestObject.value)
    ensures SelectSource(input).FromString? ==>
      (r.Success? <==> parse(input.manifestString.value).Success?)
      && (r.Success? ==> r.value == parse(input.manifestString.value).value)
    ensures SelectSource(input).FromPath? ==>
      (r.Success? <==> readFile(input.manifestPath).Success? && parse(readFile(input.manifestPath).value).Success?)
      && (r.Success? ==> r.value == parse(readFile(input.manifestPath).value).value)
    ensures r.Failure? ==> r.error.DecodeError?
  {
    match SelectSource(input)
    case FromString(text) =>
      (match parse(text) case Success(v) => Success(v) case Failure(e) => Failure(DecodeError(e)))
    case FromObject(obj) => Success(obj)
    case FromPath(path) =>
      (match readFile(path)
       case Failure(e) => Failure(DecodeError(e))
       case Success(text) =>
         (match parse(text) case Success(v) => Success(v) case Failure(e) => Failure(DecodeError(e))))
  }

  // ---------------------------------------------------------------------
  // Reading the manifest
  // ---------------------------------------------------------------------

  function NullishName(v: Value): string {
    if v.Null? then "null" else "undefined"
  }

  /** The TypeError JavaScript throws for `v.key` when `v` is null or
      undefined. */
  function CannotRead(v: Value, key: string): Failure {
    TypeError("Cannot read properties of " + NullishName(v) + " (reading '" + key + "')")
  }

  /** `obj.key.method(...)` for a string method: `obj.key` must be a
      string. */
  function StringField(obj: Value, key: string, methodName: string): (r: Result<string, Failure>)
    ensures r.Success? <==> obj.Obj? && Lookup(obj.entries, key).Some? && Lookup(obj.entries, key).value.Str?
    ensures r.Success? ==> r.value == Lookup(obj.entries, key).value.s
  {
    match GetProperty(obj, key)
    case None => Failure(CannotRead(obj, key))
    case Some(v) =>
      if v.Null? || v.Undefined? then Failure(CannotRead(v, methodName))
      else if v.Str? then Success(v.s)
      else Failure(TypeError("obj." + key + "." + methodName + " is not a function"))
  }

  /** `obj.metadata.field`; reading it throws when `metadata` is null or
      missing. */
  function MetadataField(obj: Value, field: string): (r: Result<Value, Failure>)
    ensures r.Failure? <==> match GetProperty(obj, "metadata") case None => true case Some(m) => m.Null? || m.Undefined?
  {
    match GetProperty(obj, "metadata")
    case None => Failure(CannotRead(obj, "metadata"))
    case Some(meta) =>
      (match GetProperty(meta, field) case None => Failure(CannotRead(meta, field)) case Some(v) => Success(v))
  }

  /** `obj.apiVersion.split('/')` into group and version, then
      `obj.kind.toLowerCase() + "s"`, in that order. */
  function ReadIdentity(obj: Value): (r: Result<Identity, Failure>)
    ensures StringField(obj, "apiVersion", "split").Failure? ==>
      r == Failure(StringField(obj, "apiVersion", "split").error)
    ensures r.Success? <==>
      StringField(obj, "apiVersion", "split").Success? && StringField(obj, "kind", "toLowerCase").Success?
    ensures r.Success? ==>
      && StringField(obj, "kind", "toLowerCase") == Success(r.value.kind)
      && r.value.plural == Plural(r.value.kind)
      && (r.value.group, r.value.version) == GroupVersion(StringField(obj, "apiVersion", "split").value)
      && (r.value.version.None? <==> '/' !in StringField(obj, "apiVersion", "split").value)
  {
    match StringField(obj, "apiVersion", "split")
    case Failure(e) => Failure(e)
    case Success(apiVersion) =>
      match StringField(obj, "kind", "toLowerCase")
      case Failure(e) => Failure(e)
      case Success(kind) =>
        GroupVersionParts(apiVersion);
        var (group, version) := GroupVersion(apiVersion);
        Success(Identity(kind, group, version, Plural(kind)))
  }

  // ---------------------------------------------------------------------
  // Client configuration
  // ---------------------------------------------------------------------

  /** Where the requests go: with a truthy `clusterName`, that cluster from
      the registry, reached with its service-account token through a context
      named after it; otherwise the default configuration. */
  function ResolveEndpoint(clusterName: Option<string>, registry: Registry): (r: Result<Endpoint, Failure>)
    ensures !IsTruthyString(clusterName) ==> r == Success(Ambient)
    ensures r.Failure? <==> IsTruthyString(clusterName) && FindCluster(clusterName.value, registry).None?
    ensures r.Failure? ==> r.error == ClusterNotFound(NotFoundMessage(clusterName.value))
    ensures r.Success? && IsTruthyString(clusterName) ==>
      var c := FindCluster(clusterName.value, registry).value;
      && c.name == clusterName.value
      && r.value == Bearer(clusterName.value, c.url, c.caData, c.skipTLSVerify, SCAFFOLDER_USER, c.serviceAccountToken)
  {
    if IsTruthyString(clusterName) then
      match FindCluster(clusterName.value, registry)
      case None => Failure(ClusterNotFound(NotFoundMessage(clusterName.value)))
      case Some(c) =>
        Success(Bearer(clusterName.value, c.url, c.caData, c.skipTLSVerify, SCAFFOLDER_USER, c.serviceAccountToken))
    else Success(Ambient)
  }

  /** `new KubeConfig()`, then either the named cluster's cluster, user,
      context and current context, or `loadFromDefault()`. */
  method SetUpKubeConfig(clusterName: Option<string>, registry: Registry) returns (kc: KubeConfig, err: Option<Failure>)
    ensures fresh(kc)
    ensures err.None? <==> ResolveEndpoint(clusterName, registry).Success?
    ensures err.Some? ==> err.value == ResolveEndpoint(clusterName, registry).error
    ensures err.None? ==> kc.CurrentEndpoint() == Some(ResolveEndpoint(clusterName, registry).value)
    ensures err.None? && IsTruthyString(clusterName) ==>
      var name := clusterName.value;
      var c := FindCluster(name, registry).value;
      && kc.clusters == [ClusterEntry(name, c.caData, c.url, c.skipTLSVerify)]
      && kc.users == [User(SCAFFOLDER_USER, c.serviceAccountToken)]
      && kc.contexts == [Context(name, name, SCAFFOLDER_USER)]
      && kc.currentContext == name
      && !kc.loadedDefault
    ensures err.None? && !IsTruthyString(clusterName) ==> kc.loadedDefault
  {
    kc := new KubeConfig();
    err := None;
    if IsTruthyString(clusterName) {
      var name := clusterName.value;
      var found := GetClusterConfig(name, registry);
      if found.Failure? {
        err := Some(ClusterNotFound(found.error));
        return;
      }
      var targetCluster := found.value;
      kc.AddCluster(ClusterEntry(targetCluster.name, targetCluster.caData, targetCluster.url, targetCluster.skipTLSVerify));
      kc.AddUser(User(SCAFFOLDER_USER, targetCluster.serviceAccountToken));
      kc.AddContext(Context(name, name, SCAFFOLDER_USER));
      kc.SetCurrentContext(name);
    } else {
      kc.LoadFromDefault();
    }
  }

  // ---------------------------------------------------------------------
  // Dispatch
  // ---------------------------------------------------------------------

  function Issue(call: PatchCall, respond: PatchCall -> Reply, onSuccess: Value -> Value): Outcome {
    match respond(call)
    case Applied(body) => Outcome([call], Success(onSuccess(body)))
    case Rejected(body) => Outcome([call], Failure(PatchFailed(call, body)))
  }

  /** `handleCoreObjects`: only `ConfigMap` is supported; its patch returns
      the server's body. */
  function HandleCoreObjects(obj: Value, kind: string, endpoint: Endpoint, respond: PatchCall -> Reply): (r: Outcome)
    ensures kind != "ConfigMap" ==> r == Outcome([], Failure(UnsupportedKind("kind " + kind + " is not supported")))
    ensures |r.calls| <= 1
    ensures r.calls != [] ==> r.calls[0].PatchNamespacedConfigMap? && kind == "ConfigMap"
    ensures r.result.Success? ==> r.calls != [] && respond(r.calls[0]) == Applied(r.result.value)
  {
    if kind == "ConfigMap" then
      match MetadataField(obj, "name")
      case Failure(e) => Outcome([], Failure(e))
      case Success(name) =>
        match MetadataField(obj, "namespace")
        case Failure(e) => Outcome([], Failure(e))
        case Success(namespace) =>
          Issue(PatchNamespacedConfigMap(endpoint, name, namespace, obj, SERVER_SIDE_APPLY), respond, body => body)
    else Outcome([], Failure(UnsupportedKind("kind " + kind + " is not supported")))
  }

  /** The cluster-scoped custom-object patch; on success the handler returns
      `{}`. */
  function PatchClusterScoped(
    obj: Value, group: string, version: string, plural: string,
    endpoint: Endpoint, respond: PatchCall -> Reply): Outcome
  {
    match MetadataField(obj, "name")
    case Failure(e) => Outcome([], Failure(e))
    case Success(name) =>
      Issue(PatchClusterCustomObject(endpoint, group, version, plural, name, obj, SERVER_SIDE_APPLY), respond, _ => Obj([]))
  }

  /** The custom-resource path: with `namespaced` a namespaced patch, and then,
      in every case, the cluster-scoped patch. */
  function ApplyCustom(
    obj: Value, group: string, version: string, plural: string, namespaced: bool,
    endpoint: Endpoint, respond: PatchCall -> Reply): (r: Outcome)
    ensures |r.calls| <= 2
    ensures !namespaced ==> |r.calls| <= 1
    ensures forall k :: 0 <= k < |r.calls| ==>
      (r.calls[k].PatchNamespacedCustomObject? || r.calls[k].PatchClusterCustomObject?)
      && r.calls[k].group == group && r.calls[k].version == version && r.calls[k].plural == plural
    ensures r.result.Success? ==> r.result.value == Obj([]) && r.calls != [] && r.calls[|r.calls| - 1].PatchClusterCustomObject?
  {
    if namespaced then
      match MetadataField(obj, "namespace")
      case Failure(e) => Outcome([], Failure(e))
      case Success(namespace) =>
        match MetadataField(obj, "name")
        case Failure(e) => Outcome([], Failure(e))
        case Success(name) =>
          var first := Issue(
            PatchNamespacedCustomObject(endpoint, group, version, namespace, plural, name, obj, SERVER_SIDE_APPLY),
            respond, body => body);
          if first.result.Failure? then first
          else
            var second := PatchClusterScoped(obj, group, version, plural, endpoint, respond);
            Outcome(first.calls + second.calls, second.result)
    else PatchClusterScoped(obj, group, version, plural, endpoint, respond)
  }

  /** The whole handler as a function of its inputs. */
  function Plan(
    input: Input,
    parse: string -> Result<Value, string>,
    readFile: Option<string> -> Result<string, string>,
    registry: Registry,
    respond: PatchCall -> Reply): (r: Outcome)
    ensures LoadManifest(input, parse, readFile).Failure? ==>
      r == Outcome([], Failure(LoadManifest(input, parse, readFile).error))
    ensures r.calls != [] ==>
      && LoadManifest(input, parse, readFile).Success?
      && ReadIdentity(LoadManifest(input, parse, readFile).value).Success?
      && ResolveEndpoint(input.clusterName, registry).Success?
    ensures |r.calls| <= 2
  {
    match LoadManifest(input, parse, readFile)
    case Failure(e) => Outcome([], Failure(e))
    case Success(obj) =>
      match ReadIdentity(obj)
      case Failure(e) => Outcome([], Failure(e))
      case Success(id) =>
        match ResolveEndpoint(input.clusterName, registry)
        case Failure(e) => Outcome([], Failure(e))
        case Success(endpoint) =>
          if id.version.None? then HandleCoreObjects(obj, id.kind, endpoint, respond)
          else ApplyCustom(obj, id.group, id.version.value, id.plural, input.namespaced, endpoint, respond)
  }

  /** Lines 66-78: `obj` is assigned in whichever branch the precedence
      picks. */
  method ReadManifest(
    input: Input,
    parse: string -> Result<Value, string>,
    readFile: Option<string> -> Result<string, string>) returns (r: Result<Value, Failure>)
    ensures r == LoadManifest(input, parse, readFile)
  {
    var obj: Value;
    if IsTruthyString(input.manifestString) {
      var parsed := parse(input.manifestString.value);
      if parsed.Failure? {
        return Failure(DecodeError(parsed.error));
      }
      obj := parsed.value;
    } else if IsTruthyValue(input.manifestObject) {
      obj := input.manifestObject.value;
    } else {
      var fileContent := readFile(input.manifestPath);
      if fileContent.Failure? {
        return Failure(DecodeError(fileContent.error));
      }
      var parsed := parse(fileContent.value);
      if parsed.Failure? {
        return Failure(DecodeError(parsed.error));
      }
      obj := parsed.value;
    }
    r := Success(obj);
  }

  /** Lines 113-178: the awaited custom-object patches, one after the other;
      a rejected patch is rethrown and nothing after it runs. */
  method PatchCustomObject(
    obj: Value, group: string, version: string, plural: string, namespaced: bool,
    endpoint: Endpoint, respond: PatchCall -> Reply) returns (calls: seq<PatchCall>, result: Result<Value, Failure>)
    ensures Outcome(calls, result) == ApplyCustom(obj, group, version, plural, namespaced, endpoint, respond)
  {
    calls := [];
    if namespaced {
      var namespace := MetadataField(obj, "namespace");
      if namespace.Failure? {
        return [], Failure(namespace.error);
      }
      // `metadata` was readable for the namespace, so it is for the name.
      var name := MetadataField(obj, "name");
      assert name.Success?;
      var call := PatchNamespacedCustomObject(endpoint, group, version, namespace.value, plural, name.value, obj, SERVER_SIDE_APPLY);
      calls := calls + [call];
      var reply := respond(call);
      if reply.Rejected? {
        return calls, Failure(PatchFailed(call, reply.body));
      }
    }
    var name := MetadataField(obj, "name");
    if name.Failure? {
      return calls, Failure(name.error);
    }
    var call := PatchClusterCustomObject(endpoint, group, version, plural, name.value, obj, SERVER_SIDE_APPLY);
    calls := calls + [call];
    var reply := respond(call);
    if reply.Rejected? {
      return calls, Failure(PatchFailed(call, reply.body));
    }
    result := Success(Obj([]));
  }

  /** The action's `handler`. */
  method Handler(
    input: Input,
    parse: string -> Result<Value, string>,
    readFile: Option<string> -> Result<string, string>,
    registry: Registry,
    respond: PatchCall -> Reply) returns (calls: seq<PatchCall>, result: Result<Value, Failure>)
    ensures Outcome(calls, result) == Plan(input, parse, readFile, registry, respond)
  {
    var manifest := ReadManifest(input, parse, readFile);
    if manifest.Failure? {
      return [], Failure(manifest.error);
    }
    var obj := manifest.value;

    var identity := ReadIdentity(obj);
    if identity.Failure? {
      return [], Failure(identity.error);
    }
    var id := identity.value;

    var kc, err := SetUpKubeConfig(input.clusterName, registry);
    if err.Some? {
      return [], Failure(err.value);
    }
    var endpoint := kc.CurrentEndpoint().value;

    if id.version.None? {
      var core := HandleCoreObjects(obj, id.kind, endpoint, respond);
      return core.calls, core.result;
    }
    calls, result := PatchCustomObject(obj, id.group, id.version.value, id.plural, input.namespaced, endpoint, respond);
  }

  // ---------------------------------------------------------------------
  // Properties
  // ---------------------------------------------------------------------

  /** `obj.metadata` can be read from (it is present and not null). */
  predicate HasMetadata(obj: Value) {
    match GetProperty(obj, "metadata") case None => false case Some(m) => !m.Null? && !m.Undefined?
  }

  /** `obj.metadata.field`, for a manifest with metadata. */
  function Meta(obj: Value, field: string): Value
    requires HasMetadata(obj)
  {
    MetadataField(obj, field).value
  }

  /** Failures come in a fixed order and each stops the handler before any
      request: a missing or non-string `apiVersion` or `kind` first, then an
      unknown cluster name, then an unsupported core kind. */
  lemma FailureOrder(
    input: Input, parse: string -> Result<Value, string>, readFile: Option<string> -> Result<string, string>,
    registry: Registry, respond: PatchCall -> Reply, obj: Value)
    requires LoadManifest(input, parse, readFile) == Success(obj)
    ensures ReadIdentity(obj).Failure? ==>
      Plan(input, parse, readFile, registry, respond) == Outcome([], Failure(ReadIdentity(obj).error))
    ensures (ReadIdentity(obj).Success? && IsTruthyString(input.clusterName)
             && FindCluster(input.clusterName.value, registry).None?) ==>
      Plan(input, parse, readFile, registry, respond) ==
        Outcome([], Failure(ClusterNotFound(NotFoundMessage(input.clusterName.value))))
    ensures (ReadIdentity(obj).Success? && ResolveEndpoint(input.clusterName, registry).Success?
             && ReadIdentity(obj).value.version.None? && ReadIdentity(obj).value.kind != "ConfigMap") ==>
      Plan(input, parse, readFile, registry, respond) ==
        Outcome([], Failure(UnsupportedKind("kind " + ReadIdentity(obj).value.kind + " is not supported")))
  {
  }

  /** A manifest object without `apiVersion` fails with the TypeError of
      `undefined.split`, before any request, whatever the cluster. */
  lemma MissingApiVersion(
    input: Input, parse: string -> Result<Value, string>, readFile: Option<string> -> Result<string, string>,
    registry: Registry, respond: PatchCall -> Reply, obj: Value)
    requires LoadManifest(input, parse, readFile) == Success(obj)
    requires obj.Obj? && "apiVersion" !in Keys(obj.entries)
    ensures Plan(input, parse, readFile, registry, respond) == Outcome([], Failure(CannotRead(Undefined, "split")))
  {
    assert GetProperty(obj, "apiVersion") == Some(Undefined);
  }

  /** How a trace may end: a failure other than a rejected request comes
      before any request; a rejected request is the last one sent, is what
      is thrown, and every request before it was applied; a success means
      every request was applied. */
  ghost predicate TraceConsistent(o: Outcome, respond: PatchCall -> Reply) {
    && (o.result.Failure? && !o.result.error.PatchFailed? ==> o.calls == [])
    && (o.result.Failure? && o.result.error.PatchFailed? ==>
          && o.calls != []
          && o.calls[|o.calls| - 1] == o.result.error.call
          && respond(o.result.error.call) == Rejected(o.result.error.body)
          && forall k :: 0 <= k < |o.calls| - 1 ==> respond(o.calls[k]).Applied?)
    && (o.result.Success? ==> o.calls != [] && forall k :: 0 <= k < |o.calls| ==> respond(o.calls[k]).Applied?)
  }

  /** What every request of a trace shares: the manifest as body, the
      endpoint, the server-side-apply options; and there are at most two. */
  ghost predicate CallsShare(o: Outcome, obj: Value, endpoint: Endpoint) {
    |o.calls| <= 2 &&
    forall k :: 0 <= k < |o.calls| ==>
      o.calls[k].body == obj && o.calls[k].endpoint == endpoint && o.calls[k].options == SERVER_SIDE_APPLY
  }

  lemma CustomTrace(
    obj: Value, group: string, version: string, plural: string, namespaced: bool,
    endpoint: Endpoint, respond: PatchCall -> Reply)
    ensures TraceConsistent(ApplyCustom(obj, group, version, plural, namespaced, endpoint, respond), respond)
    ensures CallsShare(ApplyCustom(obj, group, version, plural, namespaced, endpoint, respond), obj, endpoint)
  {
    var second := PatchClusterScoped(obj, group, version, plural, endpoint, respond);
    assert TraceConsistent(second, respond);
    if namespaced && MetadataField(obj, "namespace").Success? {
      assert MetadataField(obj, "name").Success?;
      var first := Issue(
        PatchNamespacedCustomObject(endpoint, group, version, MetadataField(obj, "namespace").value, plural,
          MetadataField(obj, "name").value, obj, SERVER_SIDE_APPLY),
        respond, body => body);
      if first.result.Success? {
        assert second.calls != [];
        var o := Outcome(first.calls + second.calls, second.result);
        assert o.calls[1..] == second.calls;
        assert TraceConsistent(o, respond);
      }
    }
  }

  /** Every trace of the handler ends as `TraceConsistent` says and its
      requests share what `CallsShare` says. */
  lemma PlanTrace(
    input: Input, parse: string -> Result<Value, string>, readFile: Option<string> -> Result<string, string>,
    registry: Registry, respond: PatchCall -> Reply)
    ensures TraceConsistent(Plan(input, parse, readFile, registry, respond), respond)
    ensures Plan(input, parse, readFile, registry, respond).calls != [] ==>
      && LoadManifest(input, parse, readFile).Success?
      && ResolveEndpoint(input.clusterName, registry).Success?
      && CallsShare(Plan(input, parse, readFile, registry, respond),
           LoadManifest(input, parse, readFile).value, ResolveEndpoint(input.clusterName, registry).value)
  {
    var manifest := LoadManifest(input, parse, readFile);
    if manifest.Success? {
      var obj := manifest.value;
      var identity := ReadIdentity(obj);
      var endpoint := ResolveEndpoint(input.clusterName, registry);
      if identity.Success? && endpoint.Success? {
        var id := identity.value;
        if id.version.Some? {
          CustomTrace(obj, id.group, id.version.value, id.plural, input.namespaced, endpoint.value, respond);
          assert Plan(input, parse, readFile, registry, respond)
            == ApplyCustom(obj, id.group, id.version.value, id.plural, input.namespaced, endpoint.value, respond);
        } else {
          CoreTrace(obj, id.kind, endpoint.value, respond);
          assert Plan(input, parse, readFile, registry, respond) == HandleCoreObjects(obj, id.kind, endpoint.value, respond);
        }
      } else {
        assert Plan(input, parse, readFile, registry, respond).calls == [];
      }
    } else {
      assert Plan(input, parse, readFile, registry, respond).calls == [];
    }
  }

  lemma CoreTrace(obj: Value, kind: string, endpoint: Endpoint, respond: PatchCall -> Reply)
    ensures TraceConsistent(HandleCoreObjects(obj, kind, endpoint, respond), respond)
    ensures CallsShare(HandleCoreObjects(obj, kind, endpoint, respond), obj, endpoint)
  {
  }

  /** The core path (no version): a `ConfigMap` is patched once, in its
      namespace, and the server's body is returned; any other kind is
      refused. */
  lemma CorePath(
    input: Input, parse: string -> Result<Value, string>, readFile: Option<string> -> Result<string, string>,
    registry: Registry, respond: PatchCall -> Reply, obj: Value, endpoint: Endpoint)
    requires LoadManifest(input, parse, readFile) == Success(obj)
    requires ReadIdentity(obj).Success? && ReadIdentity(obj).value.version.None?
    requires ResolveEndpoint(input.clusterName, registry) == Success(endpoint)
    requires HasMetadata(obj)
    ensures var o := Plan(input, parse, readFile, registry, respond);
      var call := PatchNamespacedConfigMap(endpoint, Meta(obj, "name"), Meta(obj, "namespace"), obj, SERVER_SIDE_APPLY);
      if ReadIdentity(obj).value.kind == "ConfigMap" then
        && o.calls == [call]
        && o.result == match respond(call) case Applied(b) => Success(b) case Rejected(b) => Failure(PatchFailed(call, b))
      else
        o.calls == [] && o.result.Failure? && o.result.error.UnsupportedKind?
  {
  }

  /** The custom-resource path (a version is present): with `namespaced`, the
      namespaced patch and then, if it was applied, the cluster-scoped patch;
      without it, only the cluster-scoped patch. Success returns `{}`. */
  lemma CustomPath(
    input: Input, parse: string -> Result<Value, string>, readFile: Option<string> -> Result<string, string>,
    registry: Registry, respond: PatchCall -> Reply, obj: Value, id: Identity, endpoint: Endpoint)
    requires LoadManifest(input, parse, readFile) == Success(obj)
    requires ReadIdentity(obj) == Success(id) && id.version.Some?
    requires ResolveEndpoint(input.clusterName, registry) == Success(endpoint)
    requires HasMetadata(obj)
    ensures var o := Plan(input, parse, readFile, registry, respond);
      var namespacedCall := PatchNamespacedCustomObject(
        endpoint, id.group, id.version.value, Meta(obj, "namespace"), id.plural, Meta(obj, "name"), obj, SERVER_SIDE_APPLY);
      var clusterCall := PatchClusterCustomObject(
        endpoint, id.group, id.version.value, id.plural, Meta(obj, "name"), obj, SERVER_SIDE_APPLY);
      && (input.namespaced && respond(namespacedCall).Applied? ==> o.calls == [namespacedCall, clusterCall])
      && (input.namespaced && respond(namespacedCall).Rejected? ==> o.calls == [namespacedCall])
      && (!input.namespaced ==> o.calls == [clusterCall])
      && (o.result.Success? <==> respond(clusterCall).Applied? && (input.namespaced ==> respond(namespacedCall).Applied?))
      && (o.result.Success? ==> o.result.value == Obj([]))
  {
  }

  /** A ConfigMap or custom resource whose `metadata` is missing or null
      fails with the TypeError of reading its first metadata field, before
      any request: `namespace` on the namespaced custom path, `name`
      otherwise. */
  lemma MissingMetadata(
    input: Input, parse: string -> Result<Value, string>, readFile: Option<string> -> Result<string, string>,
    registry: Registry, respond: PatchCall -> Reply, obj: Value, id: Identity, endpoint: Endpoint)
    requires LoadManifest(input, parse, readFile) == Success(obj)
    requires ReadIdentity(obj) == Success(id) && (id.version.Some? || id.kind == "ConfigMap")
    requires ResolveEndpoint(input.clusterName, registry) == Success(endpoint)
    requires !HasMetadata(obj)
    ensures GetProperty(obj, "metadata").Some?
    ensures Plan(input, parse, readFile, registry, respond) ==
      Outcome([], Failure(CannotRead(GetProperty(obj, "metadata").value,
        if id.version.Some? && input.namespaced then "namespace" else "name")))
  {
  }

  // ---------------------------------------------------------------------
  // Worked examples
  // ---------------------------------------------------------------------

  /** A manifest holding just `apiVersion` and `kind` strings. */
  function TypeMeta(apiVersion: string, kind: string): Value {
    Obj([Entry("apiVersion", Str(apiVersion)), Entry("kind", Str(kind))])
  }

  lemma ReadTypeMeta(apiVersion: string, kind: string)
    ensures ReadIdentity(TypeMeta(apiVersion, kind))
      == Success(Identity(kind, GroupVersion(apiVersion).0, GroupVersion(apiVersion).1, Plural(kind)))
  {
    var obj := TypeMeta(apiVersion, kind);
    assert Lookup(obj.entries, "apiVersion") == Some(Str(apiVersion));
    assert Lookup(obj.entries, "kind") == Some(Str(kind));
  }

  /** `argoproj.io/v1alpha1`, `Application`: a custom resource with group
      `argoproj.io`, version `v1alpha1` and plural `applications`. */
  lemma ArgoApplicationIdentity()
    ensures ReadIdentity(TypeMeta("argoproj.io/v1alpha1", "Application"))
      == Success(Identity("Application", "argoproj.io", Some("v1alpha1"), "applications"))
  {
    ReadTypeMeta("argoproj.io/v1alpha1", "Application");
    ArgoGroupVersion();
    ApplicationPlural();
  }

  lemma ArgoGroupVersion()
    ensures GroupVersion("argoproj.io/v1alpha1") == ("argoproj.io", Some("v1alpha1"))
  {
    assert "argoproj.io/v1alpha1" == "argoproj.io" + "/" + "v1alpha1";
    GroupVersionOf("argoproj.io", "v1alpha1");
  }

  lemma ApplicationPlural()
    ensures Plural("Application") == "applications"
  {
    assert ToLower("Application") == "application";
  }

  /** `v1`: no version, so the core path; the group is `v1` itself. */
  lemma CoreApiVersion()
    ensures GroupVersion("v1") == ("v1", None)
  {
    SplitWithoutSeparator("v1", '/');
  }
}
