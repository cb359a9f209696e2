# Scaffolder actions: empty-value pruning and Kubernetes apply, in Dafny

This project models the two pieces of sequential logic in the scaffolder
actions of `cnoe-io/plugin-scaffolder-actions`, and proves properties of them.

**The sanitize action's pruner.** This is `removeEmptyObjects` in
`src/actions/sanitize.ts`. A decoded YAML document is a tree of JavaScript
values (`JsValues.Value`): undefined, null, booleans, numbers, strings,
arrays and plain objects.
- An array is a sequence of slots. Each slot is a hole or an element.
- An object is its list of own entries, in enumeration order. Its keys are
  distinct, and array-index keys (`"0"`, `"7"`, ...) come first, in ascending
  numeric order, before the other keys (`JsValues.WellFormed`).

`Sanitize.Prune` is the specification. `Sanitize.RemoveEmptyObjects` is the
source's algorithm: at each level, a `for...in` loop fills a fresh array or
object with `newObj[key] = newValue`. The method is proved equal to `Prune`.
Both assignments are modelled with JavaScript's semantics:
- Array index assignment (`JsValues.SetIndex`) grows the array and leaves
  holes. Kept elements therefore stay at their original index and the array
  is not compacted. The result ends at the last kept element.
- Object key assignment (`JsValues.SetKey`) creates a new own property
  where JavaScript enumerates it. An array-index key goes among the index
  keys and any other key goes at the end. In the loop every copied key
  precedes the visited one, so the copy is an append. The key `__proto__`
  is the exception: assigning it runs the inherited prototype setter and
  creates no own property. A `__proto__` mapping key that `js-yaml` decoded
  as an own property is therefore dropped from the pruned object.

**The apply action** (`cnoe:kubernetes:apply`, `src/actions/k8s-apply.ts`).
`K8sApply.Plan` maps the action's inputs to an `Outcome`. The outcome holds
the patch requests issued, in order, and the returned value or the thrown
failure. The inputs are:
- the input fields;
- YAML parsing and file reading, as function parameters;
- the cluster registry, a list of locators, each with a list of clusters;
- the server's reply to each request, as a function `respond`.

`K8sApply.Handler` runs the handler step by step. It assigns `obj` across
branches, drives a `KubeClient.KubeConfig` object
(`addCluster`/`addUser`/`addContext`/`setCurrentContext` or
`loadFromDefault`), and awaits the patches one after the other. It is proved
equal to `Plan`. `ClusterRegistry.GetClusterConfig` is the source's lookup
loop, proved against the first-match specification `FindCluster`.

Behaviour worth noting, where the code does something other than its own
text suggests:
- `apiVersion: "v1"` yields group `"v1"`, the first segment, rather than an
  absent group (k8s-apply.ts:79-80). The group is unused on the core path.
- The `namespaced` input is described as "whether the API is namespaced"
  (k8s-apply.ts:46-49), which suggests a single request. With
  `namespaced = true`, however, the namespaced custom-object patch is
  followed by the cluster-scoped one, because no `return` separates them
  (k8s-apply.ts:116-177).
- The output schema announces "the object returned by Kubernetes"
  (k8s-apply.ts:58-63). The custom-resource path nevertheless always returns
  `{}` (k8s-apply.ts:178). Only the core path returns the server's body.
- Empty `apiVersion` and `kind` strings are not rejected. `""` splits into
  `[""]` and takes the core path, and the plural of `""` is `"s"`. Only a
  missing or non-string field fails, with the JavaScript TypeError.
- A `clusterName` of `""` is falsy, so it selects the default
  configuration. An empty `manifestString` falls through to
  `manifestObject`.
- `getClusterConfig` scans config locators in order, and within each locator
  takes the first cluster with the name. A name repeated later is ignored.

## Model

| member | source | states |
|---|---|---|
| `Sanitize.Prune` | src/actions/sanitize.ts:30-52 | non-objects (strings, numbers, booleans, null, undefined) come back unchanged; arrays stay arrays and objects stay objects; the top-level value is always returned |
| `Sanitize.RemoveEmptyObjects` | src/actions/sanitize.ts:30-52 | the loop that fills a fresh array or object key by key computes exactly `Prune(v)` |
| `Sanitize.PruneEntriesLookup` | src/actions/sanitize.ts:37-48 | a key is absent from the pruned object exactly when it was absent, is `__proto__`, or its pruned value is null, undefined or an empty container; otherwise it maps to its pruned value (so no new keys appear) |
| `Sanitize.IsEmptyValue` | src/actions/sanitize.ts:40-45 | the drop test: falsy scalars are not empty; an object is empty exactly when it has no own key, an array exactly when all its slots are holes |
| `Sanitize.PruneSlots` | src/actions/sanitize.ts:35-51 | the pruned array is no longer than the input, never ends in a hole, and holds no empty element |
| `Sanitize.PruneEntries` | src/actions/sanitize.ts:35-51 | the pruned object has no more entries than the input, no `__proto__` own key and no empty value |
| `Sanitize.PruneEntriesKeysFrom` | src/actions/sanitize.ts:37-48 | every key of the pruned object is a key of the input |
| `Sanitize.PruneEntriesPrecede` | src/actions/sanitize.ts:37-47 | when the loop visits a key, every key already copied precedes it in enumeration order |
| `Sanitize.PruneEntriesOrdered` | src/actions/sanitize.ts:35-51 | the pruned object's entries are still in JavaScript enumeration order |
| `Sanitize.ProtoKeyDropped` | src/actions/sanitize.ts:44-47 | `{x: {__proto__: {a: 1}}}` prunes to `{}` and `{__proto__: 1, b: 2}` to `{b: 2}` |
| `Sanitize.PruneEntriesKeepsOrder` | src/actions/sanitize.ts:35-49 | the pruned object's keys are a subsequence of the input's keys: the survivors keep their relative order |
| `Sanitize.PruneSlotsAt` | src/actions/sanitize.ts:35-47 | each index of the pruned array holds the pruned slot of the same input index (a kept element keeps its index, a dropped one leaves a hole); past the end only dropped slots remain; the result never ends in a hole |
| `Sanitize.PruneSlotsUnique` | src/actions/sanitize.ts:35-47 | the facts of `PruneSlotsAt` determine the pruned array uniquely |
| `Sanitize.PruneEntriesSnoc` | src/actions/sanitize.ts:37-49 | one more loop iteration over an object entry appends that entry's pruned form exactly when it is kept |
| `Sanitize.ScalarEntrySurvives` | src/actions/sanitize.ts:40-47 | a non-null scalar under a key other than `__proto__`, `0`, `false` and `""` included, is kept unchanged |
| `Sanitize.ScalarItemSurvives` | src/actions/sanitize.ts:40-47 | a non-null scalar array element, falsy ones included, is kept unchanged at its index |
| `Sanitize.HollowPrunesToEmpty` | src/actions/sanitize.ts:35-51 | a tree with only null, undefined and empty containers at its leaves prunes to `[]` or `{}` of the same kind (or stays null/undefined) |
| `Sanitize.HollowSlotsPruneToEmpty` | src/actions/sanitize.ts:35-51 | an array of hollow elements prunes to `[]` |
| `Sanitize.HollowEntriesPruneToEmpty` | src/actions/sanitize.ts:35-51 | an object of hollow values prunes to `{}` |
| `Sanitize.PruneIdempotent` | src/actions/sanitize.ts:30-52 | pruning a pruned tree changes nothing, for own-key values (see "## Left out") |
| `Sanitize.PruneSlotsIdempotent` | src/actions/sanitize.ts:35-51 | pruning a pruned array changes nothing, for own-key values |
| `Sanitize.PruneEntriesIdempotent` | src/actions/sanitize.ts:35-51 | pruning a pruned object changes nothing, for own-key values |
| `Sanitize.PruneWellFormed` | src/actions/sanitize.ts:37-48 | pruning never makes a key occur twice in an object, and keeps every object in enumeration order |
| `Sanitize.PruneEntriesWellFormed` | src/actions/sanitize.ts:37-48 | a pruned entry list has distinct keys and well-formed values |
| `JsValues.SetIndex` | src/actions/sanitize.ts:47 | `a[i] = x` on an array: index `i` holds `x`, lower indices are unchanged, the gap up to `i` is holes, the length is the larger of the old length and `i + 1` |
| `JsValues.SetKey` | src/actions/sanitize.ts:47 | `o[k] = x` on an object: an existing key keeps its place and gets `x`; `__proto__`, when not an own key, adds no own key; any other new key becomes one more own property with value `x`; every other key keeps its value |
| `JsValues.InsertKey` | src/actions/sanitize.ts:47 | a new own property: one more entry, found under its key with its value, every other key unchanged |
| `JsValues.InsertKeyAtEnd` | src/actions/sanitize.ts:47 | a new key that every present key precedes in enumeration order is appended at the end |
| `JsValues.Overwrite` | src/actions/sanitize.ts:47 | assigning an existing key keeps the key list, gives the key the new value, and leaves every other key's value |
| `JsValues.ItemCount` | src/actions/sanitize.ts:44 | `Object.keys(array).length` counts the elements, not the holes; it is zero exactly when every slot is a hole |
| `JsValues.Keys` | src/actions/sanitize.ts:37 | the keys `for...in` visits, in order, one per entry |
| `JsValues.Lookup` | src/actions/sanitize.ts:38 | `obj[key]` finds a value exactly when the key is one of the object's keys, and that value sits under that key |
| `JsValues.GetProperty` | src/actions/k8s-apply.ts:79 | a property read throws exactly on null and undefined; on an object it yields the own entry or `undefined`, on any other value `undefined`. This is exact for the names the handler reads (`apiVersion`, `kind`, `metadata`, `name`, `namespace`), which no built-in prototype defines; names such as `length` or `toString` are not modelled |
| `K8sApply.SelectSource` | src/actions/k8s-apply.ts:67-78 | a truthy `manifestString` wins, then a truthy `manifestObject`; otherwise `manifestPath`, present or not; an empty string falls through |
| `K8sApply.ReadManifest` | src/actions/k8s-apply.ts:66-78 | the branch-by-branch assignment of `obj` decodes the selected source, or fails with the parse or read error |
| `K8sApply.StringField` | src/actions/k8s-apply.ts:79-84 | `obj.apiVersion.split` and `obj.kind.toLowerCase` succeed exactly when the manifest is an object whose field is a string, and use that string |
| `K8sApply.MetadataField` | src/actions/k8s-apply.ts:120-122 | `obj.metadata.name` / `.namespace` throws exactly when `metadata` is missing or null |
| `K8sApply.ReadIdentity` | src/actions/k8s-apply.ts:79-84 | the identity is derived exactly when `apiVersion` and `kind` are both strings, and a bad `apiVersion` is reported first because it is read first; group and version are the `GroupVersion` split of the manifest's `apiVersion` (no version exactly when it has no `/`), the kind is the manifest's `kind` and the plural is its plural |
| `K8sApply.LoadManifest` | src/actions/k8s-apply.ts:66-78 | the manifest is the object input as given, or the parse of the string input, or the parse of the file's text; any failure is a decode error |
| `K8sApply.ResolveEndpoint` | src/actions/k8s-apply.ts:85-107 | without a truthy `clusterName`, the default configuration; otherwise it fails exactly when the registry has no such cluster, with `Cluster with name <name> not found`, and else targets that cluster's URL, CA data and TLS setting with user `scaffolder-user` and its service-account token, in a context named after it |
| `K8sApply.HandleCoreObjects` | src/actions/k8s-apply.ts:207-233 | any kind but `ConfigMap` fails as unsupported with no request; at most one request, a `patchNamespacedConfigMap`; success returns the body the server applied |
| `K8sApply.ApplyCustom` | src/actions/k8s-apply.ts:113-178 | at most two custom-object requests (one without `namespaced`), all with the manifest's group, version and plural; success returns `{}` after a cluster-scoped patch |
| `K8sApply.Plan` | src/actions/k8s-apply.ts:65-179 | a manifest that cannot be decoded fails with no request; a request is issued only once the manifest, its identity and the endpoint are resolved; at most two requests |
| `K8sApply.MissingMetadata` | src/actions/k8s-apply.ts:120-122 | a ConfigMap or custom resource whose `metadata` is missing or null issues no request and fails with the TypeError of reading `namespace` (namespaced custom path) or `name` of it |
| `K8sApply.SetUpKubeConfig` | src/actions/k8s-apply.ts:85-107 | with a truthy `clusterName`: the cluster entry, context and current context are all named after it, the user is `scaffolder-user` with the cluster's `serviceAccountToken`, and requests go to that cluster's URL; an unknown name fails with `Cluster with name <name> not found`; otherwise the default configuration is loaded |
| `K8sApply.PatchCustomObject` | src/actions/k8s-apply.ts:113-178 | the awaited custom-object patches issue exactly the requests of `ApplyCustom`, stop at the first rejection and otherwise return `{}` |
| `K8sApply.Handler` | src/actions/k8s-apply.ts:65-179 | the handler run step by step issues exactly the requests of `Plan` and returns or throws what `Plan` says |
| `K8sApply.FailureOrder` | src/actions/k8s-apply.ts:79-111 | a bad `apiVersion` or `kind` fails first, whatever the cluster; then an unknown cluster name; then an unsupported core kind, with `kind <K> is not supported`; none of them issues a request |
| `K8sApply.MissingApiVersion` | src/actions/k8s-apply.ts:79 | a manifest without `apiVersion` fails with the TypeError of reading `split` of undefined, before any request |
| `K8sApply.PlanTrace` | src/actions/k8s-apply.ts:109-178 | every failure but a rejection comes before any request; a rejection is the last request and is rethrown, all earlier ones applied; success means all applied; at most two requests, each carrying the manifest, the resolved endpoint and field manager `backstage`, force and `application/apply-patch+yaml` |
| `K8sApply.CustomTrace` | src/actions/k8s-apply.ts:115-178 | the custom path's trace ends consistently and all its requests share body, endpoint and options |
| `K8sApply.CoreTrace` | src/actions/k8s-apply.ts:207-233 | the core path's trace ends consistently and its request has the manifest, endpoint and options |
| `K8sApply.CorePath` | src/actions/k8s-apply.ts:207-233 | for a manifest with `metadata` (without it, see `MissingMetadata`): without a version, a `ConfigMap` gets exactly one `patchNamespacedConfigMap(name, namespace)` and the server's body is returned; any other kind issues nothing and fails as unsupported |
| `K8sApply.CustomPath` | src/actions/k8s-apply.ts:115-178 | for a manifest with `metadata` (without it, see `MissingMetadata`): with a version: `namespaced` issues the namespaced patch `(group, version, namespace, plural, name)` and, if applied, the cluster-scoped patch `(group, version, plural, name)`; otherwise only the cluster-scoped patch; success returns `{}` |
| `K8sApply.ReadTypeMeta` | src/actions/k8s-apply.ts:79-84 | a manifest with string `apiVersion` and `kind` yields the group/version split and the plural of the kind |
| `K8sApply.ArgoApplicationIdentity` | src/actions/k8s-apply.ts:79-84 | `argoproj.io/v1alpha1`, `Application` gives group `argoproj.io`, version `v1alpha1`, plural `applications` |
| `K8sApply.ArgoGroupVersion` | src/actions/k8s-apply.ts:79-81 | `argoproj.io/v1alpha1` splits into group `argoproj.io` and version `v1alpha1` |
| `K8sApply.ApplicationPlural` | src/actions/k8s-apply.ts:84 | the plural of `Application` is `applications` |
| `K8sApply.CoreApiVersion` | src/actions/k8s-apply.ts:79-81 | `v1` gives group `v1` and no version |
| `ResourceIdentity.GroupVersionOf` | src/actions/k8s-apply.ts:79-81 | `group/version` with `/`-free parts gives back exactly that group and version |
| `ResourceIdentity.SplitJoin` | src/actions/k8s-apply.ts:79 | joining the pieces of `split('/')` gives the string back, and no piece holds a `/` |
| `ResourceIdentity.JoinSplit` | src/actions/k8s-apply.ts:79 | splitting the join of `/`-free pieces gives the pieces back |
| `ResourceIdentity.SplitWithoutSeparator` | src/actions/k8s-apply.ts:79 | a string without `/` splits into itself alone |
| `ResourceIdentity.SplitAtFirstSeparator` | src/actions/k8s-apply.ts:79 | the first `/` ends the first piece |
| `ResourceIdentity.GroupVersionParts` | src/actions/k8s-apply.ts:79-81 | the version is absent exactly when `apiVersion` has no `/`, and then the group is the whole `apiVersion`; otherwise group and version are the first two `/`-free segments and later segments are ignored |
| `ResourceIdentity.ToLower` | src/actions/k8s-apply.ts:84 | lower-casing keeps the length, leaves no upper-case ASCII letter, turns each upper-case letter into its lower-case letter and leaves every other character as it is |
| `ResourceIdentity.ToLowerIdempotent` | src/actions/k8s-apply.ts:84 | lower-casing a lower-cased string changes nothing |
| `ResourceIdentity.Plural` | src/actions/k8s-apply.ts:84 | the plural is the lower-cased kind followed by a single `s` |
| `ResourceIdentity.Split` | src/actions/k8s-apply.ts:79 | `split('/')` gives at least one piece, and no piece holds a `/` |
| `ResourceIdentity.GroupVersion` | src/actions/k8s-apply.ts:79-81 | group and version hold no `/`; the version is absent exactly when `apiVersion` has no `/` |
| `ResourceIdentity.PluralShape` | src/actions/k8s-apply.ts:84 | the plural is the lower-cased kind plus `s`: one longer, ends in `s`, no upper-case letter, independent of the kind's case |
| `ClusterRegistry.GetClusterConfig` | src/actions/k8s-apply.ts:184-205 | the collecting loop returns the first-match cluster when there is one, and fails with `Cluster with name <name> not found` exactly when there is none |
| `ClusterRegistry.FindByName` | src/actions/k8s-apply.ts:193-195 | a found cluster has exactly the requested name |
| `ClusterRegistry.FindCluster` | src/actions/k8s-apply.ts:184-205 | a found cluster has exactly the requested name |
| `ClusterRegistry.ConfigLocators` | src/actions/k8s-apply.ts:185-189 | a locator is kept exactly when it is in the registry and of type `config` |
| `ClusterRegistry.ConfigLocatorsAppend` | src/actions/k8s-apply.ts:185-189 | the filter keeps the order: filtering a concatenation concatenates the filtered parts |
| `ClusterRegistry.FindClusterNoneIff` | src/actions/k8s-apply.ts:184-205 | the lookup fails exactly when no `config` locator holds a cluster with exactly that name |
| `ClusterRegistry.FindClusterFirst` | src/actions/k8s-apply.ts:184-205 | the lookup returns the lexicographically first match: earliest config locator, then earliest cluster in it |
| `ClusterRegistry.FindClusterSnoc` | src/actions/k8s-apply.ts:192-199 | scanning one more locator changes the answer only when none was found yet |
| `ClusterRegistry.FindClusterConfigLocators` | src/actions/k8s-apply.ts:185-189 | filtering to `config` locators first does not change the first match |
| `ClusterRegistry.FindByNameFirst` | src/actions/k8s-apply.ts:193-195 | `find` returns the earliest cluster with the name |
| `ClusterRegistry.FindByNameNone` | src/actions/k8s-apply.ts:193-195 | `find` finds nothing exactly when no cluster has the name |
| `KubeClient.KubeConfig.constructor` | src/actions/k8s-apply.ts:85 | a new configuration is empty and not loaded from the default |
| `KubeClient.KubeConfig.AddCluster` | src/actions/k8s-apply.ts:89-94 | appends one cluster entry and changes nothing else |
| `KubeClient.KubeConfig.AddUser` | src/actions/k8s-apply.ts:95-98 | appends one user and changes nothing else |
| `KubeClient.KubeConfig.AddContext` | src/actions/k8s-apply.ts:99-103 | appends one context and changes nothing else |
| `KubeClient.KubeConfig.SetCurrentContext` | src/actions/k8s-apply.ts:104 | sets the current context and changes nothing else |
| `KubeClient.KubeConfig.LoadFromDefault` | src/actions/k8s-apply.ts:106 | switches to the default configuration and changes nothing else |
| `KubeClient.KubeConfig.CurrentEndpoint` | src/actions/k8s-apply.ts:113 | a client made from a default-loaded configuration uses the ambient credentials; otherwise requests need a context named by the current context, go to the server, CA data and TLS setting of a cluster named by that context, and carry the token of a user named by it; no such context means no endpoint |
| `Wrappers.FindFirst` | src/actions/k8s-apply.ts:193-195 | `find` returns nothing exactly when no element passes the test, and otherwise the element at the first index that passes it (`FindByName` is this search by name) |

## Left out

- YAML text parsing and dumping (`yaml.load`, `YAML.parse`, `yaml.dump`). The sanitize handler is only parse, prune and dump, so the model starts from the decoded tree. Parsing in the apply action is a `parse` parameter.
- Values `js-yaml` builds that are not plain data (`Date` for timestamps and the like), inherited enumerable properties, and non-index properties on arrays. Numbers are reals, so NaN and the infinities are not represented.
- Sanitize.RemoveEmptyObjects: requires every object in the tree to have distinct keys listed in enumeration order, which every JavaScript object has.
- Assigning `__proto__` in the pruner (sanitize.ts:47) also replaces the fresh object's prototype when the value is an object. The model records only that no own key is created. The prototype is seen neither by `Object.keys` nor by `yaml.dump`, but `for...in` does see it, so a second in-memory call copies the prototype's keys.
- Sanitize.PruneIdempotent: idempotence is proved for own-key values, which is the output after `yaml.dump` and a reload. It is not proved for the in-memory objects. In JavaScript, `{__proto__: {a: 1}, b: 2}` as `js-yaml` builds it prunes to `{b: 2}` with prototype `{a: 1}`, and pruning that again gives `{b: 2, a: 1}`, because `for...in` visits the inherited `a`.
- Sanitize.PruneSlotsIdempotent: the same limit one level down. `[{__proto__: {a: 1}, b: 2}]` pruned twice in memory gives `[{b: 2, a: 1}]`, and the model proves only the own-key form.
- Sanitize.PruneEntriesIdempotent: the same limit for objects. Idempotence holds for the own-key entries, not for in-memory results whose replaced prototype a second `for...in` would visit.
- JsValues.InsertKey: states where a new key's value is found, not that an insertion in the middle keeps the entries in enumeration order; only the append case the pruner uses is proved (`InsertKeyAtEnd`). The model works on immutable values, so "the input is not mutated" holds by construction; aliasing between input and output is not represented.
- `resolveSafeChildPath` and `fs.readFileSync`: file I/O and path sandboxing in an external library. They are one `readFile` parameter that may fail.
- `KubeConfig.loadFromDefault`: reads kubeconfig or in-cluster files. It is recorded as a switch to the ambient endpoint. The client library's own checks in `addCluster`/`addUser`/`addContext` (duplicate names) are not modelled; the configuration is fresh each time.
- The Kubernetes client calls, HTTP and TLS: each patch is a `PatchCall` value, and the server's answer is supplied by `respond`. Response status codes, the client's own argument checks and transport errors are part of that answer.
- The Backstage `Config` accessors (`getConfigArray`, `getString`, `getBoolean`): the registry is a list of records, so their missing-key errors are not modelled.
- ResourceIdentity.ToLower: lower-cases ASCII letters only, while `toLowerCase` covers all of Unicode.
- Logging (`ctx.logger`, `console.log`), `ctx.output`, the action and schema registration, and async/Promise mechanics.
- `src/actions/verify.ts`: checks that an external binary exists and runs it as a child process. Its only logic is appending `--config <v>` arguments.
