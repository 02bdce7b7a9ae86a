/** The registry reconciler: given a catalog's package list it ensures the
    ServiceAccount, Role and RoleBinding (only for private registries), the
    registry Deployment and its Service, and records the Service's address.
    Every ensure* step follows the get-or-create/update pattern against the
    abstract store of module Client. */
module Registry {
  import opened Objects
  import opened Client
  import opened AppRegistries
  import opened Strconv

  const SelectorLabelKey: string := "marketplace.catalogSourceConfig"
  const PortNumber: int := 50051
  const PortName: string := "grpc"
  const DeploymentUpdateAnnotation: string := "openshift-marketplace-update-hash"

  /** The immutable part of the registry descriptor. `packageIDs` is the
      package list already split into valid IDs, and `reader` is the
      datastore's view of `source`: a package ID missing from it is a read
      that fails. */
  datatype Task = Task(
    reader: map<string, PackageMeta>,
    source: string,
    packages: string,
    packageIDs: seq<string>,
    key: NamespacedName,
    owner: string,
    image: string)

  datatype Outcome = Pass | Fail(error: ApiError)

  /** An API answer as an ensure step sees it: AlreadyExists is not an error. */
  function OutcomeOf(res: ApiResult): (o: Outcome)
    ensures o.Fail? <==> res.Failed?
  {
    if res.Failed? then Fail(res.error) else Pass
  }

  // ----- pure constructors of the desired objects -----

  /** The selector label shared by the Deployment's selector, its pod
      template and the Service. */
  function Label(t: Task): (m: map<string, string>)
    ensures m.Keys == {SelectorLabelKey} && m[SelectorLabelKey] == t.key.name
  {
    map[SelectorLabelKey := t.key.name]
  }

  /** The RoleBinding's one subject: the registry's service account. */
  function Subjects(t: Task): (s: seq<Subject>)
    ensures |s| == 1 && s[0].kind == "ServiceAccount"
    ensures s[0].name == NewServiceAccount(t).meta.name && s[0].namespace == NewServiceAccount(t).meta.namespace
  {
    [Subject("ServiceAccount", t.key.name, t.key.namespace)]
  }

  /** Read access to secrets, which a private registry needs. */
  function Rules(): (rules: seq<PolicyRule>)
    ensures |rules| == 1
    ensures rules[0].verbs == ["get"] && rules[0].apiGroups == [""] && rules[0].resources == ["secrets"]
  {
    [PolicyRule(["get"], [""], ["secrets"])]
  }

  /** The registry pod: one container named after the registry, running
      `command` in the task's image, under the registry's service account
      only when one is needed. */
  function NewPodTemplateSpec(t: Task, command: seq<string>, needServiceAccount: bool): (p: PodTemplate)
    ensures p.meta == t.key && p.labels == Label(t) && p.annotations == map[]
    ensures p.containers == [Container(t.key.name, t.image, command)]
    ensures p.serviceAccountName == if needServiceAccount then t.key.name else ""
  {
    PodTemplate(
      t.key, Label(t), map[],
      [Container(t.key.name, t.image, command)],
      if needServiceAccount then t.key.name else "")
  }

  /** One replica of the registry pod, selected by the pod's own label. */
  function NewDeployment(t: Task, command: seq<string>, needServiceAccount: bool): (d: Object)
    ensures d.Deployment? && d.meta == t.key && d.replicas == 1
    ensures d.template == NewPodTemplateSpec(t, command, needServiceAccount)
    ensures d.selector == d.template.labels
  {
    Deployment(t.key, 1, Label(t), NewPodTemplateSpec(t, command, needServiceAccount))
  }

  function NewServiceAccount(t: Task): (o: Object)
    ensures KindOf(o) == ServiceAccountKind && o.meta == t.key
  {
    ServiceAccount(t.key)
  }

  function NewRole(t: Task): (o: Object)
    ensures o.Role? && o.meta == t.key && o.rules == Rules()
  {
    Role(t.key, Rules())
  }

  /** Binds the registry's service account to the role `roleName`. */
  function NewRoleBinding(t: Task, roleName: string): (o: Object)
    ensures o.RoleBinding? && o.meta == t.key && o.roleRef == roleName && o.subjects == Subjects(t)
  {
    RoleBinding(t.key, Subjects(t), roleName)
  }

  /** Fronts the registry pods on the registry port; the cluster IP is left
      for the API server to assign. */
  function NewService(t: Task): (o: Object)
    ensures o.Service? && o.meta == t.key && o.clusterIP == ""
    ensures o.ports == [ServicePort(PortName, PortNumber, PortNumber)]
    ensures forall command, needServiceAccount :: o.selector == NewPodTemplateSpec(t, command, needServiceAccount).labels
  {
    Service(t.key, [ServicePort(PortName, PortNumber, PortNumber)], Label(t), "")
  }

  /** The desired object of each kind, as the create path builds it. */
  function Desired(t: Task, k: Kind, command: seq<string>, needServiceAccount: bool): (o: Object)
    ensures KindOf(o) == k && o.meta == t.key
  {
    match k
    case ServiceAccountKind => NewServiceAccount(t)
    case RoleKind => NewRole(t)
    case RoleBindingKind => NewRoleBinding(t, t.key.name)
    case DeploymentKind => NewDeployment(t, command, needServiceAccount)
    case ServiceKind => NewService(t)
  }

  /** The update branch of ensureDeployment applied to a fetched Deployment:
      rewrite container 0's command (or rebuild the pod template when it has
      no container), set the service account when needed, and refresh the
      update annotation with the clock value `stamp`. */
  function RefreshedDeployment(t: Task, d: Object, command: seq<string>, needServiceAccount: bool, stamp: string): (r: Object)
    requires d.Deployment?
    ensures r.Deployment? && r.meta == d.meta && r.replicas == d.replicas && r.selector == d.selector
    ensures |r.template.containers| > 0 && r.template.containers[0].command == command
    ensures |d.template.containers| > 0 ==>
      && |r.template.containers| == |d.template.containers|
      && r.template.containers[0] == d.template.containers[0].(command := command)
      && r.template.containers[1..] == d.template.containers[1..]
      && r.template.meta == d.template.meta && r.template.labels == d.template.labels
    ensures |d.template.containers| == 0 ==>
      r.template == NewPodTemplateSpec(t, command, needServiceAccount).(annotations := map[DeploymentUpdateAnnotation := stamp])
    ensures needServiceAccount ==> r.template.serviceAccountName == t.key.name
    ensures !needServiceAccount && |d.template.containers| > 0 ==>
      r.template.serviceAccountName == d.template.serviceAccountName
    ensures DeploymentUpdateAnnotation in r.template.annotations
      && r.template.annotations[DeploymentUpdateAnnotation] == stamp
    ensures |d.template.containers| > 0 ==>
      r.template.annotations == d.template.annotations[DeploymentUpdateAnnotation := stamp]
  {
    var template :=
      if |d.template.containers| == 0 then NewPodTemplateSpec(t, command, needServiceAccount)
      else
        var containers := d.template.containers;
        var withCommand := d.template.(containers := containers[0 := containers[0].(command := command)]);
        if needServiceAccount then withCommand.(serviceAccountName := t.key.name) else withCommand;
    d.(template := template.(annotations := template.annotations[DeploymentUpdateAnnotation := stamp]))
  }

  // ----- the ensure steps, as functions of the store -----

  datatype StepResult = StepResult(cluster: Cluster, outcome: Outcome)

  datatype ServiceResult = ServiceResult(cluster: Cluster, outcome: Outcome, address: string)

  /** The Get of kind `k` finds the stored object. */
  ghost predicate Found(c: Cluster, k: Kind) {
    k in c.objects && Call(k, Get) !in c.faults
  }

  /** The common contract of a step on kind `k`: only `k` is touched, the
      store stays well kinded, an error names a call on `k`, and success
      leaves an object of kind `k` stored. */
  ghost predicate StepOn(c: Cluster, r: StepResult, k: Kind) {
    && OnlyTouches(c, r.cluster, k)
    && WellKinded(r.cluster.objects)
    && (r.outcome.Fail? ==> r.outcome.error.call.kind == k)
    && (r.outcome.Pass? ==> k in r.cluster.objects)
  }

  /** The Get that opens every step leaves the step's contract intact. */
  lemma AfterGet(c: Cluster, r: StepResult, k: Kind)
    requires StepOn(c.(log := c.log + [Call(k, Get)]), r, k)
    ensures StepOn(c, r, k)
  {
    var c' := c.(log := c.log + [Call(k, Get)]);
    assert r.cluster.log[..|c.log|] == r.cluster.log[..|c'.log|][..|c.log|];
  }

  /** A create call as a step sees it: AlreadyExists counts as success and
      leaves the stored object alone. */
  function CreateStep(c: Cluster, o: Object): (r: StepResult)
    requires WellKinded(c.objects)
    ensures StepOn(c, r, KindOf(o))
    ensures r.outcome.Fail? <==> Call(KindOf(o), Create) in c.faults
    ensures r.cluster.objects ==
      if r.outcome.Pass? && KindOf(o) !in c.objects then c.objects[KindOf(o) := Admitted(o, c.clusterIP)] else c.objects
  {
    var created := CreateObject(c, o);
    StepResult(created.cluster, OutcomeOf(created.result))
  }

  /** An update call as a step sees it. */
  function UpdateStep(c: Cluster, o: Object): (r: StepResult)
    requires WellKinded(c.objects) && KindOf(o) in c.objects
    ensures StepOn(c, r, KindOf(o))
    ensures r.outcome.Fail? <==> Call(KindOf(o), Update) in c.faults
    ensures r.cluster.objects == if r.outcome.Pass? then c.objects[KindOf(o) := o] else c.objects
  {
    var updated := UpdateObject(c, o);
    StepResult(updated.cluster, OutcomeOf(updated.result))
  }

  /** ensureServiceAccount: create when missing; an existing ServiceAccount
      is never updated. */
  function ServiceAccountStep(t: Task, c: Cluster): (r: StepResult)
    requires WellKinded(c.objects)
    ensures StepOn(c, r, ServiceAccountKind)
    ensures r.outcome.Fail? ==> r.cluster.objects == c.objects
    ensures r.outcome.Fail? <==> !Found(c, ServiceAccountKind) && Call(ServiceAccountKind, Create) in c.faults
    ensures ServiceAccountKind in c.objects ==> r.cluster.objects == c.objects
    ensures ServiceAccountKind !in c.objects && r.outcome.Pass? ==>
      r.cluster.objects == c.objects[ServiceAccountKind := NewServiceAccount(t)]
    ensures Call(ServiceAccountKind, Update) !in r.cluster.log[|c.log|..]
  {
    var fetched := GetObject(c, ServiceAccountKind);
    var r :=
      if fetched.found.Some? then StepResult(fetched.cluster, Pass)
      else CreateStep(fetched.cluster, NewServiceAccount(t));
    AfterGet(c, r, ServiceAccountKind);
    r
  }

  /** ensureRole: create when missing, otherwise overwrite the rules. */
  function RoleStep(t: Task, c: Cluster): (r: StepResult)
    requires WellKinded(c.objects)
    ensures StepOn(c, r, RoleKind)
    ensures r.outcome.Fail? ==> r.cluster.objects == c.objects
    ensures Found(c, RoleKind) ==>
      && (r.outcome.Fail? <==> Call(RoleKind, Update) in c.faults)
      && (r.outcome.Pass? ==> r.cluster.objects == c.objects[RoleKind := c.objects[RoleKind].(rules := Rules())])
    ensures !Found(c, RoleKind) ==>
      && (r.outcome.Fail? <==> Call(RoleKind, Create) in c.faults)
      && (r.outcome.Pass? && RoleKind !in c.objects ==> r.cluster.objects == c.objects[RoleKind := NewRole(t)])
      && (RoleKind in c.objects ==> r.cluster.objects == c.objects)
  {
    var fetched := GetObject(c, RoleKind);
    var r :=
      if fetched.found.None? then CreateStep(fetched.cluster, NewRole(t))
      else UpdateStep(fetched.cluster, fetched.found.value.(rules := Rules()));
    AfterGet(c, r, RoleKind);
    r
  }

  /** ensureRoleBinding: create when missing, otherwise overwrite the role
      reference with the task's role name. */
  function RoleBindingStep(t: Task, c: Cluster): (r: StepResult)
    requires WellKinded(c.objects)
    ensures StepOn(c, r, RoleBindingKind)
    ensures r.outcome.Fail? ==> r.cluster.objects == c.objects
    ensures Found(c, RoleBindingKind) ==>
      && (r.outcome.Fail? <==> Call(RoleBindingKind, Update) in c.faults)
      && (r.outcome.Pass? ==>
            r.cluster.objects == c.objects[RoleBindingKind := c.objects[RoleBindingKind].(roleRef := t.key.name)])
    ensures !Found(c, RoleBindingKind) ==>
      && (r.outcome.Fail? <==> Call(RoleBindingKind, Create) in c.faults)
      && (r.outcome.Pass? && RoleBindingKind !in c.objects ==>
            r.cluster.objects == c.objects[RoleBindingKind := NewRoleBinding(t, t.key.name)])
      && (RoleBindingKind in c.objects ==> r.cluster.objects == c.objects)
  {
    var fetched := GetObject(c, RoleBindingKind);
    var r :=
      if fetched.found.None? then CreateStep(fetched.cluster, NewRoleBinding(t, t.key.name))
      else UpdateStep(fetched.cluster, fetched.found.value.(roleRef := t.key.name));
    AfterGet(c, r, RoleBindingKind);
    r
  }

  /** ensureDeployment: create with the command line when missing, otherwise
      update the fetched Deployment as RefreshedDeployment describes. */
  function DeploymentStep(t: Task, c: Cluster, appRegistries: seq<string>, needServiceAccount: bool, stamp: string): (r: StepResult)
    requires WellKinded(c.objects)
    ensures StepOn(c, r, DeploymentKind)
    ensures r.outcome.Fail? ==> r.cluster.objects == c.objects
    ensures Found(c, DeploymentKind) ==>
      && (r.outcome.Fail? <==> Call(DeploymentKind, Update) in c.faults)
      && (r.outcome.Pass? ==>
            r.cluster.objects == c.objects[DeploymentKind := RefreshedDeployment(
              t, c.objects[DeploymentKind], CommandLine(t.packages, appRegistries), needServiceAccount, stamp)])
    ensures !Found(c, DeploymentKind) ==>
      && (r.outcome.Fail? <==> Call(DeploymentKind, Create) in c.faults)
      && (r.outcome.Pass? && DeploymentKind !in c.objects ==>
            r.cluster.objects == c.objects[DeploymentKind := NewDeployment(
              t, CommandLine(t.packages, appRegistries), needServiceAccount)])
      && (DeploymentKind in c.objects ==> r.cluster.objects == c.objects)
  {
    var command := CommandLine(t.packages, appRegistries);
    var fetched := GetObject(c, DeploymentKind);
    var r :=
      if fetched.found.None? then CreateStep(fetched.cluster, NewDeployment(t, command, needServiceAccount))
      else UpdateStep(fetched.cluster, RefreshedDeployment(t, fetched.found.value, command, needServiceAccount, stamp));
    AfterGet(c, r, DeploymentKind);
    r
  }

  /** The stored Service is gone by the time ensureService creates its own:
      there was none, or it was found and deleted. */
  ghost predicate ServiceReplaced(c: Cluster) {
    ServiceKind !in c.objects || (Found(c, ServiceKind) && Call(ServiceKind, Delete) !in c.faults)
  }

  /** The first half of ensureService: get the Service and, when found,
      try to delete it so that the new one gets a new cluster IP. */
  function ClearService(c: Cluster): (r: Cluster)
    requires WellKinded(c.objects)
    ensures OnlyTouches(c, r, ServiceKind) && WellKinded(r.objects)
    ensures r.objects == if ServiceReplaced(c) then c.objects - {ServiceKind} else c.objects
  {
    var fetched := GetObject(c, ServiceKind);
    if fetched.found.Some? then DeleteObject(fetched.cluster, ServiceKind).cluster else fetched.cluster
  }

  /** ensureService: delete a found Service (a failed delete is tolerated),
      create a new one, and on success form the address from the cluster IP
      of the object the create call filled in and its first port. */
  function ServiceStep(t: Task, c: Cluster, address: string): (r: ServiceResult)
    requires WellKinded(c.objects)
    ensures StepOn(c, StepResult(r.cluster, r.outcome), ServiceKind)
    ensures r.outcome.Fail? <==> Call(ServiceKind, Create) in c.faults
    ensures r.outcome.Fail? ==>
      && r.address == address
      && r.cluster.objects == (if ServiceReplaced(c) then c.objects - {ServiceKind} else c.objects)
    ensures r.outcome.Pass? && ServiceReplaced(c) ==>
      && r.cluster.objects == c.objects[ServiceKind := Admitted(NewService(t), c.clusterIP)]
      && r.address == c.clusterIP + ":" + Itoa(PortNumber)
    ensures r.outcome.Pass? && !ServiceReplaced(c) ==>
      && r.cluster.objects == c.objects
      && r.address == ":" + Itoa(PortNumber)
  {
    var cleared := ClearService(c);
    var created := CreateObject(cleared, NewService(t));
    if created.result.Failed? then ServiceResult(created.cluster, Fail(created.result.error), address)
    else ServiceResult(created.cluster, Pass, created.obj.clusterIP + ":" + Itoa(created.obj.ports[0].port))
  }

  /** ServiceAccount, Role and RoleBinding in order, stopping at the first
      error. */
  function RbacSteps(t: Task, c: Cluster): (r: StepResult)
    requires WellKinded(c.objects)
    ensures WellKinded(r.cluster.objects)
  {
    var sa := ServiceAccountStep(t, c);
    if sa.outcome.Fail? then sa
    else
      var role := RoleStep(t, sa.cluster);
      if role.outcome.Fail? then role
      else RoleBindingStep(t, role.cluster)
  }

  datatype EnsureResult = EnsureResult(cluster: Cluster, address: string, outcome: Outcome)

  /** Ensure: the RBAC steps only when a package needs a secret, then the
      Deployment, then the Service; the first error ends the sequence. */
  function EnsureSpec(t: Task, c: Cluster, address: string, stamp: string): (r: EnsureResult)
    requires WellKinded(c.objects)
    ensures WellKinded(r.cluster.objects)
    ensures r.cluster.faults == c.faults && r.cluster.clusterIP == c.clusterIP
  {
    var appRegistries := AppRegistriesOf(t.reader, t.packageIDs);
    var secretIsPresent := SecretPresent(t.reader, t.packageIDs);
    var rbac := if secretIsPresent then RbacSteps(t, c) else StepResult(c, Pass);
    if rbac.outcome.Fail? then EnsureResult(rbac.cluster, address, rbac.outcome)
    else
      var deployment := DeploymentStep(t, rbac.cluster, appRegistries, secretIsPresent, stamp);
      if deployment.outcome.Fail? then EnsureResult(deployment.cluster, address, deployment.outcome)
      else
        var service := ServiceStep(t, deployment.cluster, address);
        EnsureResult(service.cluster, service.address, service.outcome)
  }

  /** A registry: the task, the address it publishes, and the store the
      client talks to. */
  class Registry {
    const task: Task
    var address: string
    var cluster: Cluster

    ghost predicate Valid()
      reads this
    {
      WellKinded(cluster.objects)
    }

    /** NewRegistry */
    constructor (task: Task, cluster: Cluster)
      requires WellKinded(cluster.objects)
      ensures Valid()
      ensures this.task == task && this.cluster == cluster && address == ""
    {
      this.task := task;
      this.cluster := cluster;
      this.address := "";
    }

    function GetAddress(): (a: string)
      reads this
      ensures a == address
    {
      address
    }

    /** Ensure; `stamp` is the clock reading the Deployment annotation takes. */
    method Ensure(stamp: string) returns (outcome: Outcome)
      requires Valid()
      modifies this
      ensures Valid()
      ensures EnsureResult(cluster, address, outcome) == EnsureSpec(task, old(cluster), old(address), stamp)
    {
      var appRegistries, secretIsPresent := GetAppRegistries(task.reader, task.packageIDs);
      if secretIsPresent {
        outcome := EnsureServiceAccount();
        if outcome.Fail? {
          return;
        }
        outcome := EnsureRole();
        if outcome.Fail? {
          return;
        }
        outcome := EnsureRoleBinding();
        if outcome.Fail? {
          return;
        }
      }
      outcome := EnsureDeployment(appRegistries, secretIsPresent, stamp);
      if outcome.Fail? {
        return;
      }
      outcome := EnsureService();
    }

    method EnsureServiceAccount() returns (outcome: Outcome)
      requires Valid()
      modifies this
      ensures Valid() && address == old(address)
      ensures StepResult(cluster, outcome) == ServiceAccountStep(task, old(cluster))
    {
      var fetched := GetObject(cluster, ServiceAccountKind);
      cluster := fetched.cluster;
      if fetched.found.None? {
        var created := CreateObject(cluster, NewServiceAccount(task));
        cluster := created.cluster;
        if created.result.Failed? {
          return Fail(created.result.error);
        }
      }
      return Pass;
    }

    method EnsureRole() returns (outcome: Outcome)
      requires Valid()
      modifies this
      ensures Valid() && address == old(address)
      ensures StepResult(cluster, outcome) == RoleStep(task, old(cluster))
    {
      var fetched := GetObject(cluster, RoleKind);
      cluster := fetched.cluster;
      if fetched.found.None? {
        var created := CreateObject(cluster, NewRole(task));
        cluster := created.cluster;
        if created.result.Failed? {
          return Fail(created.result.error);
        }
      } else {
        var role := fetched.found.value;
        role := role.(rules := Rules());
        var updated := UpdateObject(cluster, role);
        cluster := updated.cluster;
        if updated.result.Failed? {
          return Fail(updated.result.error);
        }
      }
      return Pass;
    }

    method EnsureRoleBinding() returns (outcome: Outcome)
      requires Valid()
      modifies this
      ensures Valid() && address == old(address)
      ensures StepResult(cluster, outcome) == RoleBindingStep(task, old(cluster))
    {
      var fetched := GetObject(cluster, RoleBindingKind);
      cluster := fetched.cluster;
      if fetched.found.None? {
        var created := CreateObject(cluster, NewRoleBinding(task, task.key.name));
        cluster := created.cluster;
        if created.result.Failed? {
          return Fail(created.result.error);
        }
      } else {
        var roleBinding := fetched.found.value;
        roleBinding := roleBinding.(roleRef := task.key.name);
        var updated := UpdateObject(cluster, roleBinding);
        cluster := updated.cluster;
        if updated.result.Failed? {
          return Fail(updated.result.error);
        }
      }
      return Pass;
    }

    method EnsureDeployment(appRegistries: seq<string>, needServiceAccount: bool, stamp: string) returns (outcome: Outcome)
      requires Valid()
      modifies this
      ensures Valid() && address == old(address)
      ensures StepResult(cluster, outcome) == DeploymentStep(task, old(cluster), appRegistries, needServiceAccount, stamp)
    {
      var registryCommand := GetCommand(task.packages, appRegistries);
      var fetched := GetObject(cluster, DeploymentKind);
      cluster := fetched.cluster;
      if fetched.found.None? {
        var created := CreateObject(cluster, NewDeployment(task, registryCommand, needServiceAccount));
        cluster := created.cluster;
        if created.result.Failed? {
          return Fail(created.result.error);
        }
      } else {
        var deployment := fetched.found.value;
        if |deployment.template.containers| == 0 {
          deployment := deployment.(template := NewPodTemplateSpec(task, registryCommand, needServiceAccount));
        } else {
          var containers := deployment.template.containers;
          containers := containers[0 := containers[0].(command := registryCommand)];
          deployment := deployment.(template := deployment.template.(containers := containers));
          if needServiceAccount {
            deployment := deployment.(template := deployment.template.(serviceAccountName := task.key.name));
          }
        }
        var annotations := deployment.template.annotations[DeploymentUpdateAnnotation := stamp];
        deployment := deployment.(template := deployment.template.(annotations := annotations));
        var updated := UpdateObject(cluster, deployment);
        cluster := updated.cluster;
        if updated.result.Failed? {
          return Fail(updated.result.error);
        }
      }
      return Pass;
    }

    method EnsureService() returns (outcome: Outcome)
      requires Valid()
      modifies this
      ensures Valid()
      ensures ServiceResult(cluster, outcome, address) == ServiceStep(task, old(cluster), old(address))
    {
      var fetched := GetObject(cluster, ServiceKind);
      cluster := fetched.cluster;
      if fetched.found.Some? {
        // the delete is best effort: its failure is only logged
        var deleted := DeleteObject(cluster, ServiceKind);
        cluster := deleted.cluster;
      }
      var created := CreateObject(cluster, NewService(task));
      cluster := created.cluster;
      if created.result.Failed? {
        return Fail(created.result.error);
      }
      var service := created.obj;
      address := service.clusterIP + ":" + Itoa(service.ports[0].port);
      return Pass;
    }
  }
}
