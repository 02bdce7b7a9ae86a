# Registry reconciler and finalizer helpers of the marketplace operator

This project is a Dafny model of two parts of the marketplace operator:

- The registry reconciler (`pkg/registry/registry.go`). For a catalog it does three things:
  - it turns the catalog's package list into the list of app registries and the `appregistry-server` command line;
  - it makes sure the registry's Kubernetes objects exist and are current: the ServiceAccount, Role and RoleBinding (only for private registries), the Deployment and the Service;
  - it records the address the registry serves on.
- The finalizer helpers of package `shared` (`pkg/apis/operators/shared/shared.go`).

The Kubernetes client is modelled as an abstract store (module `Client`):

- The store maps each kind to the one object of that kind under the registry's name and namespace.
- Every call is appended to a log.
- Any call can be made to fail through a table of injected faults.
- "Not found" answers follow from the store's contents, and so does "already exists".
- The cluster IP the API server assigns to the next Service it admits is a parameter of the store.

Modules:

- `Objects`: the managed objects, reduced to the fields the reconciler reads or writes, and the kinds in ensure order.
- `Client`: the store and its Get, Create, Update and Delete calls.
- `AppRegistries`: `getAppRegistries` and `getCommand` as loops over sequences. Each is proved equal to a specification (first-seen deduplication of the read hits, and the command line). The module also holds lemmas on those specifications.
- `Strconv`: `strconv.Itoa`, as used for the address, with its parser and the round trip.
- `Registry`: three layers.
  - The pure constructors of the desired objects.
  - Each `ensure*` step as a function of the store.
  - The class `Registry`, whose methods update the store and the `address` field step by step. Each method is proved equal to its step function, and `Ensure` is proved equal to the whole sequence `EnsureSpec`.
- `RegistryProperties`: what `Ensure` guarantees.
  - Call order.
  - The RBAC objects are touched only when a package needs a pull secret.
  - The stop at the first error.
  - The address.
  - Every stored object keeps the registry's key.
  - Convergence when no call fails.
  - A second fault-free run, given the next cluster IP, refreshes the Deployment's update annotation and recreates the Service under that IP. The address changes exactly when that IP differs from the first run's, and nothing else changes.
- `Finalizers`: `EnsureFinalizer` and `RemoveFinalizer` as methods that replace the finalizer list of an `ObjectMeta` object. They are proved against `WithFinalizer` and `Without`, together with their idempotence and how they interact.

Behaviour kept as the code has it:

- When the Service Create is answered "already exists", the object the reconciler holds was never filled in by the server. This happens when the old Service could not be deleted, or when its Get failed.
- The address then has an empty host: `":50051"`.
- `RegistryProperties.EnsureAddress` states both cases.

## Model

| member | source | states |
|---|---|---|
| Objects.Rank | pkg/registry/registry.go:83-100 | each kind gets a position below 5; the match puts ServiceAccount, Role, RoleBinding, Deployment, Service in the order Ensure visits them |
| Objects.RankInjective | pkg/registry/registry.go:83-100 | no two kinds share a position, so the order is strict |
| Client.GetObject | pkg/registry/registry.go:116 | a Get logs one call; it finds the stored object exactly when the kind is stored and no Get fault is injected |
| Client.CreateObject | pkg/registry/registry.go:118-119 | a Create logs one call and touches only its kind; it fails exactly on an injected fault; it answers AlreadyExists exactly when the kind is stored; otherwise it stores the object as the server admits it; the caller's object is filled in only on success |
| Client.UpdateObject | pkg/registry/registry.go:145 | an Update replaces the stored object exactly when the kind is stored and no fault is injected; otherwise nothing changes |
| Client.DeleteObject | pkg/registry/registry.go:210 | a Delete removes the stored object unless a fault is injected |
| Client.Admitted | pkg/registry/registry.go:225 | the server assigns its cluster IP to an admitted Service; every other object is stored as sent |
| Strconv.Digits | pkg/registry/registry.go:225 | decimal digits, with no leading zero unless the number is 0 |
| Strconv.Itoa | pkg/registry/registry.go:225 | the rendering is non-empty and starts with '-' exactly for negative numbers |
| Strconv.ItoaRoundTrip | pkg/registry/registry.go:225 | parsing `Itoa(n)` gives back `n` for every integer |
| Strconv.ItoaOfRegistryPort | pkg/registry/registry.go:28 | port 50051 renders as "50051" |
| AppRegistries.Encode | pkg/registry/registry.go:266-270 | `endpoint|namespace`, plus `|secret` exactly when the secret is non-empty (lengths and separator positions) |
| AppRegistries.SecretDistinguishesEncoding | pkg/registry/registry.go:266-270 | the same endpoint and namespace with and without a secret give two different entries |
| AppRegistries.HitsMembers | pkg/registry/registry.go:259-271 | an encoding is a hit exactly when some successfully read package yields it; a failed read adds nothing |
| AppRegistries.Dedup | pkg/registry/registry.go:272-281 | the deduplicated list has no duplicates and the same members as its input |
| AppRegistries.AppRegistriesExactlyHits | pkg/registry/registry.go:257-284 | the returned list holds, each exactly once, the encodings of the packages read successfully |
| AppRegistries.DedupFirstSeenOrder | pkg/registry/registry.go:272-281 | the entries are listed in the order of their first occurrence |
| AppRegistries.DedupPrefix | pkg/registry/registry.go:272-281 | the list for a prefix of the input is a prefix of the list for the whole input |
| AppRegistries.DedupOfDistinct | pkg/registry/registry.go:272-281 | a list already free of duplicates is kept as it is |
| AppRegistries.AppendIfAbsent | pkg/registry/registry.go:272-281 | the `found` scan appends the entry exactly when no equal entry is listed |
| AppRegistries.HitsStep | pkg/registry/registry.go:259-271 | one package read extends the hits by its encoding exactly when the read succeeds, and deduplication then appends it exactly when it is new |
| AppRegistries.SecretStep | pkg/registry/registry.go:259-271 | one package read raises the secret flag exactly when it succeeds and carries a secret, and never lowers it |
| AppRegistries.ReadStep | pkg/registry/registry.go:259-271 | one package read: a failed read changes neither the hits nor the secret flag; a hit appends its encoding and raises the flag exactly when it carries a secret |
| AppRegistries.GetAppRegistries | pkg/registry/registry.go:257-284 | the returned list equals the first-seen deduplication of the hits and has no duplicates; `secretIsPresent` holds exactly when some successfully read package names a secret |
| AppRegistries.TwoReads | pkg/registry/registry.go:259-271 | two successful reads list their encodings in package order, once each, and once in all if they are equal |
| AppRegistries.PublicAndPrivateRegistryBothListed | pkg/registry/registry.go:253-256 | for any endpoint and namespace, a public package followed by a private one lists the public entry and then the same entry with `|<secret>` appended, and the secret is flagged |
| AppRegistries.RegistryArgs | pkg/registry/registry.go:459-461 | one `-r` flag followed by its registry for each registry, in order |
| AppRegistries.CommandLine | pkg/registry/registry.go:457-464 | the binary first, then `-r` and registry i at positions 1+2i and 2+2i, then `-o` and the packages last; length 3+2n |
| AppRegistries.GetCommand | pkg/registry/registry.go:457-464 | the loop builds exactly `CommandLine` |
| AppRegistries.ParseRegistryArgsRoundTrip | pkg/registry/registry.go:459-461 | reading the `-r` pairs back gives the registries in order |
| AppRegistries.CommandRoundTrip | pkg/registry/registry.go:457-464 | reading the command line back gives exactly the registries and the package list it was built from |
| Registry.Label | pkg/registry/registry.go:249-251 | the selector label is the single entry mapping the label key to the registry's name |
| Registry.Subjects | pkg/registry/registry.go:287-295 | one subject, of kind ServiceAccount, naming the registry's service account and its namespace |
| Registry.Rules | pkg/registry/registry.go:467-471 | one rule granting `get` on `secrets` in the core API group |
| Registry.NewPodTemplateSpec | pkg/registry/registry.go:313-358 | the pod carries the registry key and label and no annotations, runs exactly one container named after the registry with the task's image and the given command, and names the registry's service account exactly when one is needed |
| Registry.NewDeployment | pkg/registry/registry.go:299-309 | one replica under the registry key, whose selector matches its own pod template's labels |
| Registry.NewServiceAccount | pkg/registry/registry.go:402-411 | a ServiceAccount under the registry key |
| Registry.NewRole | pkg/registry/registry.go:362-372 | a Role under the registry key with the secret-reading rules |
| Registry.NewRoleBinding | pkg/registry/registry.go:375-386 | a RoleBinding under the registry key that binds the registry's service account to the given role |
| Registry.NewService | pkg/registry/registry.go:389-425 | a Service under the registry key on port 50051 with the same target port, no cluster IP yet, and a selector equal to the registry pods' labels |
| Registry.Desired | pkg/registry/registry.go:297-425 | the object the create path builds for each kind has that kind and the registry key |
| Registry.OutcomeOf | pkg/registry/registry.go:119-122 | an ensure step fails exactly on a failed call; AlreadyExists is not an error |
| Registry.RefreshedDeployment | pkg/registry/registry.go:125-144 | the update branch of ensureDeployment: container 0 runs the new command and the other containers are kept; an empty container list is replaced by a fresh pod template; the service account is set when needed and kept otherwise; the annotations are the old ones with the update annotation set to the clock value, and nothing else is added; name, replicas and selector are kept |
| Registry.CreateStep | pkg/registry/registry.go:118-122 | a create inside a step: it fails only on an injected fault; an object already present is left alone |
| Registry.UpdateStep | pkg/registry/registry.go:145-148 | an update inside a step writes the object unless a fault is injected |
| Registry.AfterGet | pkg/registry/registry.go:116 | the opening Get keeps a step's contract |
| Registry.ServiceAccountStep | pkg/registry/registry.go:231-245 | an existing ServiceAccount is never updated; a missing one is created; the step fails only when the create fails |
| Registry.RoleStep | pkg/registry/registry.go:156-177 | a found Role gets its rules overwritten with the secret-reading rule; a missing one is created; the step fails exactly when the call it makes fails |
| Registry.RoleBindingStep | pkg/registry/registry.go:181-202 | a found RoleBinding gets its role reference overwritten with the registry's name; a missing one is created; the step fails exactly when the call it makes fails |
| Registry.DeploymentStep | pkg/registry/registry.go:113-152 | a found Deployment is replaced by its refreshed form; a missing one is created with the command line; the step fails exactly when the call it makes fails, and then the store is unchanged |
| Registry.ClearService | pkg/registry/registry.go:206-217 | a found Service is deleted unless the delete fails; a failed delete is ignored |
| Registry.ServiceStep | pkg/registry/registry.go:205-227 | the step fails exactly when the create fails, whatever the delete did; on failure the address is unchanged; on success the address is the new Service's cluster IP and the port if the old one was gone, and `":50051"` otherwise |
| Registry.RbacSteps | pkg/registry/registry.go:83-93 | the RBAC steps keep every stored object under its own kind |
| Registry.EnsureSpec | pkg/registry/registry.go:78-102 | Ensure never changes the injected faults or the cluster IP and keeps the store well kinded |
| Registry.Registry.GetAddress | pkg/registry/registry.go:104-106 | returns the address the last successful Service step recorded |
| Registry.Registry.constructor | pkg/registry/registry.go:63-74 | a new registry holds its task and store and an empty address |
| Registry.Registry.Ensure | pkg/registry/registry.go:78-102 | the method computes the app registries, then runs the steps in order and returns at the first error; its store, address and result are those of `EnsureSpec` |
| Registry.Registry.EnsureServiceAccount | pkg/registry/registry.go:231-245 | the method's effect on the store is `ServiceAccountStep`; the address is unchanged |
| Registry.Registry.EnsureRole | pkg/registry/registry.go:156-177 | the method's effect on the store is `RoleStep`; the address is unchanged |
| Registry.Registry.EnsureRoleBinding | pkg/registry/registry.go:181-202 | the method's effect on the store is `RoleBindingStep`; the address is unchanged |
| Registry.Registry.EnsureDeployment | pkg/registry/registry.go:113-152 | editing the fetched Deployment in place and updating it has exactly the effect of `DeploymentStep`; the address is unchanged |
| Registry.Registry.EnsureService | pkg/registry/registry.go:205-227 | its effect on the store and the address field is `ServiceStep` |
| RegistryProperties.RbacStepsRun | pkg/registry/registry.go:83-93 | ServiceAccount, Role and RoleBinding are called in that order; an error is on an RBAC kind and no later kind is called; on success all three are stored |
| RegistryProperties.ServiceStepFacts | pkg/registry/registry.go:205-227 | the Service step touches only the Service, and the address has the cluster IP exactly when the old Service was gone |
| RegistryProperties.EnsureShape | pkg/registry/registry.go:78-102 | one run of Ensure: sorted calls, skipped RBAC, stop at the first error, the stored objects, and the address |
| RegistryProperties.EnsureCallOrder | pkg/registry/registry.go:78-102 | every call of Ensure comes in the order ServiceAccount, Role, RoleBinding, Deployment, Service |
| RegistryProperties.EnsureSkipsRbacWithoutSecret | pkg/registry/registry.go:81-93 | without a package that needs a secret, no ServiceAccount, Role or RoleBinding call is made and those objects stay as they were |
| RegistryProperties.EnsureStoresItsObjects | pkg/registry/registry.go:78-102 | after a successful Ensure the Deployment and Service are stored, and also all three RBAC objects when a secret is needed |
| RegistryProperties.EnsureStopsAtFirstFailure | pkg/registry/registry.go:84-99 | on an error no later kind is called or changed, and the address is unchanged |
| RegistryProperties.EnsureAddress | pkg/registry/registry.go:218-225 | on success the address is the new Service's cluster IP with ":50051" when the old Service was gone; otherwise it is ":50051" |
| RegistryProperties.ServiceAccountKeepsKey | pkg/registry/registry.go:401-411 | the ServiceAccount step stores objects only under the registry's key |
| RegistryProperties.RoleKeepsKey | pkg/registry/registry.go:360-372 | the Role step stores objects only under the registry's key |
| RegistryProperties.RoleBindingKeepsKey | pkg/registry/registry.go:374-386 | the RoleBinding step stores objects only under the registry's key |
| RegistryProperties.RbacKeepsKey | pkg/registry/registry.go:83-93 | the RBAC steps store objects only under the registry's key |
| RegistryProperties.DeploymentKeepsKey | pkg/registry/registry.go:297-309 | the Deployment step stores objects only under the registry's key |
| RegistryProperties.ServiceKeepsKey | pkg/registry/registry.go:388-399 | the Service step stores objects only under the registry's key |
| RegistryProperties.EnsureKeepsObjectsUnderTaskKey | pkg/registry/registry.go:78-102 | if every stored object carries the registry's name and namespace, they still all do after Ensure |
| RegistryProperties.RbacStepsFaultFree | pkg/registry/registry.go:156-245 | with no faults the RBAC steps succeed and converge the three RBAC objects |
| RegistryProperties.DeploymentStepFaultFree | pkg/registry/registry.go:113-152 | with no faults the Deployment step succeeds, refreshing the stored Deployment or creating one |
| RegistryProperties.ServiceStepFaultFree | pkg/registry/registry.go:205-227 | with no faults the Service is recreated and the address is its cluster IP with ":50051" |
| RegistryProperties.EnsureConvergesWithoutFaults | pkg/registry/registry.go:78-102 | with no faults Ensure succeeds, leaves exactly the converged store and publishes the cluster IP with ":50051" |
| RegistryProperties.RefreshOfRefreshed | pkg/registry/registry.go:125-144 | refreshing a Deployment that already runs the command only changes its update annotation |
| RegistryProperties.RbacConvergedFixed | pkg/registry/registry.go:166-193 | RBAC objects that already carry the canonical rules and role reference are left as they are |
| RegistryProperties.ConvergedWellKinded | pkg/registry/registry.go:78-102 | the converged store keeps every object under its own kind |
| RegistryProperties.ConvergedAgain | pkg/registry/registry.go:141-144 | converging a converged store with the next cluster IP restamps the Deployment and re-admits the Service under that IP; the rest of the store is a fixpoint |
| RegistryProperties.SamePortSameHost | pkg/registry/registry.go:225 | two addresses with the same port are equal exactly when their hosts are |
| RegistryProperties.EnsureAgainRenewsStampAndService | pkg/registry/registry.go:205-225 | a second fault-free Ensure, given the next cluster IP, succeeds; the Deployment's update annotation takes the new clock value and the Service is recreated under the new IP; the address is the new IP with ":50051" and differs from the first exactly when the IP does; nothing else changes |
| RegistryProperties.NewObjectsShareKeyAndLabel | pkg/registry/registry.go:297-358 | every created object has its own kind and the registry's name and namespace; the Deployment selector, pod labels and Service selector are the same label; the pod's service account is set only for a private registry; the RoleBinding binds that service account |
| Finalizers.WithFinalizer | pkg/apis/operators/shared/shared.go:11-23 | afterwards the finalizer is listed; the old list is an untouched prefix; the length grows by one exactly when the finalizer was absent |
| Finalizers.Without | pkg/apis/operators/shared/shared.go:26-38 | no element equals the removed finalizer; every other finalizer keeps its multiplicity; the list does not grow |
| Finalizers.EnsureFinalizer | pkg/apis/operators/shared/shared.go:11-23 | the scan with early return replaces the list by `WithFinalizer` of the old list |
| Finalizers.RemoveFinalizer | pkg/apis/operators/shared/shared.go:26-38 | the copying loop replaces the list by `Without` of the old list, which is the old list filtered in order |
| Finalizers.EnsureFinalizerIdempotent | pkg/apis/operators/shared/shared.go:11-23 | ensuring a finalizer twice equals ensuring it once |
| Finalizers.WithoutConcat | pkg/apis/operators/shared/shared.go:27-35 | filtering distributes over concatenation |
| Finalizers.WithoutAbsent | pkg/apis/operators/shared/shared.go:26-38 | removing an absent finalizer leaves the list unchanged |
| Finalizers.RemoveFinalizerIdempotent | pkg/apis/operators/shared/shared.go:26-38 | removing a finalizer twice equals removing it once |
| Finalizers.RemoveAfterEnsure | pkg/apis/operators/shared/shared.go:11-38 | removing a finalizer undoes ensuring it |
| Finalizers.EnsureAfterRemove | pkg/apis/operators/shared/shared.go:11-38 | ensuring after removing lists the finalizer exactly once, at the end |

## Left out

- The Kubernetes client is not modelled. The store is a map from kind to one object, and other namespaces and names do not exist in it.
- Client failures other than "not found" and "already exists" are injected per call. Their error messages are not modelled.
- TypeMeta, the builders package and owner labels are not modelled. The owner-label choice (`WithOpsrcOwnerLabel`, `WithCscOwnerLabel`) lives in code that is not part of this model. `Task.owner` is carried but unused.
- The container port, the readiness and liveness probes and their `grpc_health_probe` command are not modelled. The container keeps only its name, image and command.
- The update annotation's value is an injected `stamp` string. The clock (`time.Now().UnixNano()`) and its hexadecimal formatting are left out.
- `waitForDeploymentScaleDown` is left out. It is timed polling through `wait.Poll` and is not called by `Ensure`.
- Logging is left out.
- `IsObjectInOtherNamespace` is left out. It depends on the operator's environment through `k8sutil.GetWatchNamespace`.
- `v2.GetValidPackageSliceFromString` is not part of this model. The package IDs are an input of `Task`.
- The datastore reader is a map from package ID to metadata for the registry's one source. A missing ID stands for a failed read.
- The role reference built by `builders.NewRoleRef` is modelled as the role's name only.
- The store holds a single cluster IP: the one the API server assigns to the next Service it admits. Ensure creates at most one Service, so this is faithful within one run. Between runs the caller supplies the next IP, as `EnsureAgainRenewsStampAndService` does; the model does not say how the API server picks it.
