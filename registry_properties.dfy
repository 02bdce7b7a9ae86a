/** Properties of the registry reconciler's ensure sequence: which calls it
    makes and in which order, what a failure stops, the address it
    publishes, and the store it converges to when no call fails. */
module RegistryProperties {
  import opened Objects
  import opened Client
  import opened AppRegistries
  import opened Strconv
  import opened Registry

  /** Kind `k` holds the same object (or none) in both stores. */
  ghost predicate SameAt(m: map<Kind, Object>, m': map<Kind, Object>, k: Kind) {
    (k in m <==> k in m') && (k in m ==> m[k] == m'[k])
  }

  /** The calls made between `c` and `c'` are on kinds ranked within
      [lo, hi], and they come in ensure order. */
  ghost predicate SortedRun(c: Cluster, c': Cluster, lo: nat, hi: nat) {
    && |c.log| <= |c'.log|
    && c'.log[..|c.log|] == c.log
    && (forall i :: |c.log| <= i < |c'.log| ==> lo <= Rank(c'.log[i].kind) <= hi)
    && (forall i, j :: |c.log| <= i < j < |c'.log| ==> Rank(c'.log[i].kind) <= Rank(c'.log[j].kind))
  }

  /** `c'` follows `c` by a sorted run of calls on kinds ranked within
      [lo, hi]; the environment and every kind outside the range are as
      they were. */
  ghost predicate Run(c: Cluster, c': Cluster, lo: nat, hi: nat) {
    && SortedRun(c, c', lo, hi)
    && c'.faults == c.faults && c'.clusterIP == c.clusterIP
    && (forall k :: Rank(k) < lo || hi < Rank(k) ==> SameAt(c.objects, c'.objects, k))
  }

  lemma TouchRun(c: Cluster, c': Cluster, k: Kind)
    requires OnlyTouches(c, c', k)
    ensures Run(c, c', Rank(k), Rank(k))
  {
  }

  lemma {:induction false} RunCompose(c0: Cluster, c1: Cluster, c2: Cluster, lo: nat, m: nat, hi: nat)
    requires lo <= m <= hi
    requires Run(c0, c1, lo, m) && Run(c1, c2, m, hi)
    ensures Run(c0, c2, lo, hi)
  {
    assert c2.log[..|c0.log|] == c2.log[..|c1.log|][..|c0.log|];
    forall i | |c0.log| <= i < |c1.log|
      ensures c2.log[i] == c1.log[i]
    {
      assert c2.log[..|c1.log|][i] == c2.log[i];
    }
    forall i | |c0.log| <= i < |c2.log|
      ensures lo <= Rank(c2.log[i].kind) <= hi
    {
      if i < |c1.log| {
        assert c2.log[i] == c1.log[i];
      }
    }
    forall i, j | |c0.log| <= i < j < |c2.log|
      ensures Rank(c2.log[i].kind) <= Rank(c2.log[j].kind)
    {
      if j < |c1.log| {
        assert c2.log[i] == c1.log[i] && c2.log[j] == c1.log[j];
      } else if i < |c1.log| {
        assert c2.log[i] == c1.log[i];
      }
    }
  }

  // ----- the shape of a run, over abstract step results -----

  /** What the RBAC part of Ensure guarantees. */
  ghost predicate RbacFacts(c: Cluster, r: StepResult) {
    && WellKinded(r.cluster.objects)
    && Run(c, r.cluster, 0, 2)
    && (r.outcome.Fail? ==>
          IsRbacKind(r.outcome.error.call.kind) && Run(c, r.cluster, 0, Rank(r.outcome.error.call.kind)))
    && (r.outcome.Pass? ==> forall k :: IsRbacKind(k) ==> k in r.cluster.objects)
  }

  lemma RbacChain(c: Cluster, sa: StepResult, role: StepResult, rb: StepResult)
    requires StepOn(c, sa, ServiceAccountKind)
    requires sa.outcome.Pass? ==> StepOn(sa.cluster, role, RoleKind)
    requires sa.outcome.Pass? && role.outcome.Pass? ==> StepOn(role.cluster, rb, RoleBindingKind)
    ensures RbacFacts(c, if sa.outcome.Fail? then sa else if role.outcome.Fail? then role else rb)
  {
    TouchRun(c, sa.cluster, ServiceAccountKind);
    if sa.outcome.Pass? {
      TouchRun(sa.cluster, role.cluster, RoleKind);
      RunCompose(c, sa.cluster, role.cluster, 0, 0, 1);
      if role.outcome.Pass? {
        TouchRun(role.cluster, rb.cluster, RoleBindingKind);
        RunCompose(c, role.cluster, rb.cluster, 0, 1, 2);
        assert SameAt(sa.cluster.objects, rb.cluster.objects, ServiceAccountKind);
      }
    }
  }

  /** The RBAC steps: ServiceAccount, Role, RoleBinding, in order; on an
      error no later RBAC kind is called, and no other kind is touched. */
  lemma RbacStepsRun(t: Task, c: Cluster)
    requires WellKinded(c.objects)
    ensures RbacFacts(c, RbacSteps(t, c))
  {
    var sa := ServiceAccountStep(t, c);
    var role := RoleStep(t, sa.cluster);
    RbacChain(c, sa, role, RoleBindingStep(t, role.cluster));
  }

  /** What the Service step guarantees to the sequence. */
  ghost predicate ServiceFacts(c: Cluster, s: ServiceResult, address: string) {
    && StepOn(c, StepResult(s.cluster, s.outcome), ServiceKind)
    && (s.outcome.Fail? ==> s.address == address)
    && (s.outcome.Pass? ==> s.address == (if ServiceReplaced(c) then c.clusterIP + ":50051" else ":50051"))
  }

  lemma ServiceStepFacts(t: Task, c: Cluster, address: string)
    requires WellKinded(c.objects)
    ensures ServiceFacts(c, ServiceStep(t, c, address), address)
  {
    ItoaOfRegistryPort();
  }

  /** What the part of Ensure before the Service step guarantees. */
  ghost predicate BeforeServiceFacts(c: Cluster, secretIsPresent: bool, b: StepResult) {
    && Run(c, b.cluster, 0, 3)
    && (!secretIsPresent ==> Run(c, b.cluster, 3, 3))
    && (b.outcome.Fail? ==> Run(c, b.cluster, 0, Rank(b.outcome.error.call.kind)))
    && (b.outcome.Pass? ==>
          && DeploymentKind in b.cluster.objects
          && (secretIsPresent ==> forall k :: IsRbacKind(k) ==> k in b.cluster.objects))
  }

  lemma DeploymentChain(c: Cluster, secretIsPresent: bool, rbac: StepResult, d: StepResult)
    requires !secretIsPresent ==> rbac == StepResult(c, Pass)
    requires secretIsPresent ==> RbacFacts(c, rbac)
    requires rbac.outcome.Pass? ==> StepOn(rbac.cluster, d, DeploymentKind)
    ensures BeforeServiceFacts(c, secretIsPresent, if rbac.outcome.Fail? then rbac else d)
  {
    if rbac.outcome.Pass? {
      TouchRun(rbac.cluster, d.cluster, DeploymentKind);
      RunCompose(c, rbac.cluster, d.cluster, 0, 3, 3);
      if !secretIsPresent {
        RunCompose(c, rbac.cluster, d.cluster, 3, 3, 3);
      } else {
        assert forall k :: IsRbacKind(k) ==> SameAt(rbac.cluster.objects, d.cluster.objects, k);
      }
    }
  }

  /** The steps of Ensure, sequenced with the stop at the first error. */
  function Sequenced(b: StepResult, s: ServiceResult, address: string): (r: EnsureResult) {
    if b.outcome.Fail? then EnsureResult(b.cluster, address, b.outcome)
    else EnsureResult(s.cluster, s.address, s.outcome)
  }

  /** What a whole run of Ensure guarantees: the call order, the RBAC steps
      skipped without a secret, the stop at the first error, the objects
      stored on success, and the address. */
  ghost predicate EnsureFacts(c: Cluster, secretIsPresent: bool, r: EnsureResult, address: string) {
    && Run(c, r.cluster, 0, 4)
    && (!secretIsPresent ==> Run(c, r.cluster, 3, 4))
    && (r.outcome.Fail? ==> r.address == address && Run(c, r.cluster, 0, Rank(r.outcome.error.call.kind)))
    && (r.outcome.Pass? ==>
          && DeploymentKind in r.cluster.objects && ServiceKind in r.cluster.objects
          && (secretIsPresent ==> forall k :: IsRbacKind(k) ==> k in r.cluster.objects)
          && r.address == (if ServiceReplaced(c) then c.clusterIP + ":50051" else ":50051"))
  }

  lemma ServiceChain(c: Cluster, secretIsPresent: bool, b: StepResult, s: ServiceResult, address: string)
    requires BeforeServiceFacts(c, secretIsPresent, b)
    requires b.outcome.Pass? ==> ServiceFacts(b.cluster, s, address)
    ensures EnsureFacts(c, secretIsPresent, Sequenced(b, s, address), address)
  {
    if b.outcome.Pass? {
      TouchRun(b.cluster, s.cluster, ServiceKind);
      RunCompose(c, b.cluster, s.cluster, 0, 4, 4);
      if !secretIsPresent {
        RunCompose(c, b.cluster, s.cluster, 3, 4, 4);
      }
      assert ServiceReplaced(b.cluster) == ServiceReplaced(c);
      assert SameAt(b.cluster.objects, s.cluster.objects, DeploymentKind);
      if secretIsPresent {
        assert forall k :: IsRbacKind(k) ==> SameAt(b.cluster.objects, s.cluster.objects, k);
      }
    }
  }

  lemma EnsureShape(t: Task, c: Cluster, address: string, stamp: string)
    requires WellKinded(c.objects)
    ensures EnsureFacts(c, SecretPresent(t.reader, t.packageIDs), EnsureSpec(t, c, address, stamp), address)
  {
    var secretIsPresent := SecretPresent(t.reader, t.packageIDs);
    var rbac := if secretIsPresent then RbacSteps(t, c) else StepResult(c, Pass);
    if secretIsPresent {
      RbacStepsRun(t, c);
    }
    var d := DeploymentStep(t, rbac.cluster, AppRegistriesOf(t.reader, t.packageIDs), secretIsPresent, stamp);
    DeploymentChain(c, secretIsPresent, rbac, d);
    var b := if rbac.outcome.Fail? then rbac else d;
    ServiceStepFacts(t, b.cluster, address);
    ServiceChain(c, secretIsPresent, b, ServiceStep(t, b.cluster, address), address);
  }

  // ----- the properties of Ensure -----

  /** Ensure calls the kinds in the order ServiceAccount, Role, RoleBinding,
      Deployment, Service. */
  lemma EnsureCallOrder(t: Task, c: Cluster, address: string, stamp: string)
    requires WellKinded(c.objects)
    ensures SortedRun(c, EnsureSpec(t, c, address, stamp).cluster, 0, 4)
  {
    EnsureShape(t, c, address, stamp);
  }

  /** Without a package that needs a pull secret, Ensure makes no call on
      the ServiceAccount, Role or RoleBinding and leaves them as they were. */
  lemma EnsureSkipsRbacWithoutSecret(t: Task, c: Cluster, address: string, stamp: string)
    requires WellKinded(c.objects)
    requires !SecretPresent(t.reader, t.packageIDs)
    ensures var r := EnsureSpec(t, c, address, stamp);
      && SortedRun(c, r.cluster, 3, 4)
      && forall k :: IsRbacKind(k) ==> SameAt(c.objects, r.cluster.objects, k)
  {
    EnsureShape(t, c, address, stamp);
  }

  /** A successful Ensure leaves a Deployment and a Service stored, and also
      a ServiceAccount, a Role and a RoleBinding when a package needs a
      pull secret. */
  lemma EnsureStoresItsObjects(t: Task, c: Cluster, address: string, stamp: string)
    requires WellKinded(c.objects)
    ensures var r := EnsureSpec(t, c, address, stamp);
      r.outcome.Pass? ==>
        && DeploymentKind in r.cluster.objects && ServiceKind in r.cluster.objects
        && (SecretPresent(t.reader, t.packageIDs) ==>
              ServiceAccountKind in r.cluster.objects && RoleKind in r.cluster.objects
              && RoleBindingKind in r.cluster.objects)
  {
    EnsureShape(t, c, address, stamp);
  }

  /** The first failing step ends Ensure: no later kind is called or
      changed, and the address stays as it was. */
  lemma EnsureStopsAtFirstFailure(t: Task, c: Cluster, address: string, stamp: string)
    requires WellKinded(c.objects)
    ensures var r := EnsureSpec(t, c, address, stamp);
      r.outcome.Fail? ==>
        && r.address == address
        && SortedRun(c, r.cluster, 0, Rank(r.outcome.error.call.kind))
        && forall k :: Rank(k) > Rank(r.outcome.error.call.kind) ==> SameAt(c.objects, r.cluster.objects, k)
  {
    EnsureShape(t, c, address, stamp);
  }

  /** The address after a successful Ensure: the cluster IP assigned to the
      new Service and port 50051 when the old Service was gone (absent, or
      found and deleted); otherwise the create is answered AlreadyExists,
      the object it returns was never filled in, and the host is empty. */
  lemma EnsureAddress(t: Task, c: Cluster, address: string, stamp: string)
    requires WellKinded(c.objects)
    ensures var r := EnsureSpec(t, c, address, stamp);
      r.outcome.Pass? ==>
        && (ServiceReplaced(c) ==> r.address == c.clusterIP + ":50051")
        && (!ServiceReplaced(c) ==> r.address == ":50051")
  {
    EnsureShape(t, c, address, stamp);
  }

  // ----- every stored object stays under the task's key -----

  ghost predicate UnderKey(objects: map<Kind, Object>, key: NamespacedName) {
    forall k :: k in objects ==> objects[k].meta == key
  }

  lemma ServiceAccountKeepsKey(t: Task, c: Cluster)
    requires WellKinded(c.objects) && UnderKey(c.objects, t.key)
    ensures UnderKey(ServiceAccountStep(t, c).cluster.objects, t.key)
  {
  }

  lemma RoleKeepsKey(t: Task, c: Cluster)
    requires WellKinded(c.objects) && UnderKey(c.objects, t.key)
    ensures UnderKey(RoleStep(t, c).cluster.objects, t.key)
  {
  }

  lemma RoleBindingKeepsKey(t: Task, c: Cluster)
    requires WellKinded(c.objects) && UnderKey(c.objects, t.key)
    ensures UnderKey(RoleBindingStep(t, c).cluster.objects, t.key)
  {
  }

  lemma RbacKeepsKey(t: Task, c: Cluster)
    requires WellKinded(c.objects) && UnderKey(c.objects, t.key)
    ensures UnderKey(RbacSteps(t, c).cluster.objects, t.key)
  {
    var sa := ServiceAccountStep(t, c);
    ServiceAccountKeepsKey(t, c);
    var role := RoleStep(t, sa.cluster);
    RoleKeepsKey(t, sa.cluster);
    RoleBindingKeepsKey(t, role.cluster);
  }

  lemma DeploymentKeepsKey(t: Task, c: Cluster, appRegistries: seq<string>, needServiceAccount: bool, stamp: string)
    requires WellKinded(c.objects) && UnderKey(c.objects, t.key)
    ensures UnderKey(DeploymentStep(t, c, appRegistries, needServiceAccount, stamp).cluster.objects, t.key)
  {
  }

  lemma ServiceKeepsKey(t: Task, c: Cluster, address: string)
    requires WellKinded(c.objects) && UnderKey(c.objects, t.key)
    ensures UnderKey(ServiceStep(t, c, address).cluster.objects, t.key)
  {
  }

  /** Every object Ensure stores carries the task's name and namespace:
      created objects are built under the task key and updates keep the
      fetched object's metadata. */
  lemma EnsureKeepsObjectsUnderTaskKey(t: Task, c: Cluster, address: string, stamp: string)
    requires WellKinded(c.objects) && UnderKey(c.objects, t.key)
    ensures UnderKey(EnsureSpec(t, c, address, stamp).cluster.objects, t.key)
  {
    var secretIsPresent := SecretPresent(t.reader, t.packageIDs);
    var rbac := if secretIsPresent then RbacSteps(t, c) else StepResult(c, Pass);
    if secretIsPresent {
      RbacKeepsKey(t, c);
    }
    var d := DeploymentStep(t, rbac.cluster, AppRegistriesOf(t.reader, t.packageIDs), secretIsPresent, stamp);
    DeploymentKeepsKey(t, rbac.cluster, AppRegistriesOf(t.reader, t.packageIDs), secretIsPresent, stamp);
    ServiceKeepsKey(t, d.cluster, address);
  }

  // ----- convergence when no call fails -----

  /** The RBAC objects after the RBAC steps succeed: an existing
      ServiceAccount is kept, an existing Role gets the canonical rules, an
      existing RoleBinding the task's role name; missing ones are created. */
  function RbacConverged(t: Task, objects: map<Kind, Object>): (converged: map<Kind, Object>)
    requires WellKinded(objects)
  {
    objects
      [ServiceAccountKind := if ServiceAccountKind in objects then objects[ServiceAccountKind] else NewServiceAccount(t)]
      [RoleKind := if RoleKind in objects then objects[RoleKind].(rules := Rules()) else NewRole(t)]
      [RoleBindingKind := if RoleBindingKind in objects then objects[RoleBindingKind].(roleRef := t.key.name)
                          else NewRoleBinding(t, t.key.name)]
  }

  /** The Deployment a fault-free Ensure leaves: the stored one refreshed,
      or a new one. */
  function DeploymentConverged(t: Task, objects: map<Kind, Object>, stamp: string): (d: Object)
    requires WellKinded(objects)
  {
    var secretIsPresent := SecretPresent(t.reader, t.packageIDs);
    var command := CommandLine(t.packages, AppRegistriesOf(t.reader, t.packageIDs));
    if DeploymentKind in objects then RefreshedDeployment(t, objects[DeploymentKind], command, secretIsPresent, stamp)
    else NewDeployment(t, command, secretIsPresent)
  }

  /** The store a fault-free Ensure leaves behind. */
  function Converged(t: Task, objects: map<Kind, Object>, clusterIP: string, stamp: string): (converged: map<Kind, Object>)
    requires WellKinded(objects)
  {
    var rbac := if SecretPresent(t.reader, t.packageIDs) then RbacConverged(t, objects) else objects;
    rbac[DeploymentKind := DeploymentConverged(t, objects, stamp)][ServiceKind := Admitted(NewService(t), clusterIP)]
  }

  lemma RbacStepsFaultFree(t: Task, c: Cluster)
    requires WellKinded(c.objects) && c.faults == map[]
    ensures RbacSteps(t, c).outcome.Pass?
    ensures RbacSteps(t, c).cluster.objects == RbacConverged(t, c.objects)
    ensures Run(c, RbacSteps(t, c).cluster, 0, 2)
  {
    RbacStepsRun(t, c);
    var sa := ServiceAccountStep(t, c);
    var role := RoleStep(t, sa.cluster);
    var rb := RoleBindingStep(t, role.cluster);
    assert sa.cluster.objects == c.objects[ServiceAccountKind := if ServiceAccountKind in c.objects then c.objects[ServiceAccountKind] else NewServiceAccount(t)];
  }

  lemma DeploymentStepFaultFree(t: Task, c: Cluster, c0: Cluster, stamp: string)
    requires WellKinded(c.objects) && WellKinded(c0.objects) && c.faults == map[]
    requires SameAt(c0.objects, c.objects, DeploymentKind)
    ensures var d := DeploymentStep(t, c, AppRegistriesOf(t.reader, t.packageIDs), SecretPresent(t.reader, t.packageIDs), stamp);
      d.outcome.Pass? && d.cluster.objects == c.objects[DeploymentKind := DeploymentConverged(t, c0.objects, stamp)]
  {
  }

  lemma ServiceStepFaultFree(t: Task, c: Cluster, address: string)
    requires WellKinded(c.objects) && c.faults == map[]
    ensures var s := ServiceStep(t, c, address);
      && s.outcome.Pass?
      && s.cluster.objects == c.objects[ServiceKind := Admitted(NewService(t), c.clusterIP)]
      && s.address == c.clusterIP + ":50051"
  {
    ItoaOfRegistryPort();
  }

  /** Without injected faults Ensure always succeeds, converges the store to
      `Converged` and publishes the new Service's cluster IP with port 50051. */
  lemma EnsureConvergesWithoutFaults(t: Task, c: Cluster, address: string, stamp: string)
    requires WellKinded(c.objects) && c.faults == map[]
    ensures var r := EnsureSpec(t, c, address, stamp);
      && r.outcome.Pass?
      && r.cluster.objects == Converged(t, c.objects, c.clusterIP, stamp)
      && r.address == c.clusterIP + ":50051"
  {
    var secretIsPresent := SecretPresent(t.reader, t.packageIDs);
    var rbac := if secretIsPresent then RbacSteps(t, c) else StepResult(c, Pass);
    if secretIsPresent {
      RbacStepsFaultFree(t, c);
    }
    DeploymentStepFaultFree(t, rbac.cluster, c, stamp);
    var d := DeploymentStep(t, rbac.cluster, AppRegistriesOf(t.reader, t.packageIDs), secretIsPresent, stamp);
    ServiceStepFaultFree(t, d.cluster, address);
  }

  /** The Deployment `d` with its update annotation set to `stamp`. */
  function Restamped(d: Object, stamp: string): (r: Object)
    requires d.Deployment?
  {
    d.(template := d.template.(annotations := d.template.annotations[DeploymentUpdateAnnotation := stamp]))
  }

  /** Refreshing a Deployment that already runs `command` (under the task's
      service account when one is needed) only restamps it. */
  lemma RefreshOfRefreshed(t: Task, d: Object, command: seq<string>, needServiceAccount: bool, stamp: string)
    requires d.Deployment? && |d.template.containers| > 0 && d.template.containers[0].command == command
    requires needServiceAccount ==> d.template.serviceAccountName == t.key.name
    ensures RefreshedDeployment(t, d, command, needServiceAccount, stamp) == Restamped(d, stamp)
  {
    var containers := d.template.containers;
    assert containers[0 := containers[0].(command := command)] == containers;
  }

  lemma ConvergedWellKinded(t: Task, objects: map<Kind, Object>, clusterIP: string, stamp: string)
    requires WellKinded(objects)
    ensures WellKinded(Converged(t, objects, clusterIP, stamp))
  {
  }

  /** RBAC objects that already have the canonical shape are left alone. */
  lemma RbacConvergedFixed(t: Task, objects: map<Kind, Object>)
    requires WellKinded(objects)
    requires ServiceAccountKind in objects
    requires RoleKind in objects && objects[RoleKind].rules == Rules()
    requires RoleBindingKind in objects && objects[RoleBindingKind].roleRef == t.key.name
    ensures RbacConverged(t, objects) == objects
  {
  }

  /** Converging a converged store again, with the cluster IP the API
      server hands out next, restamps the Deployment and re-admits the
      Service under that IP; everything else is a fixpoint. */
  lemma ConvergedAgain(t: Task, objects: map<Kind, Object>, ip1: string, ip2: string, stamp1: string, stamp2: string)
    requires WellKinded(objects)
    ensures WellKinded(Converged(t, objects, ip1, stamp1))
    ensures var o1 := Converged(t, objects, ip1, stamp1);
      Converged(t, o1, ip2, stamp2)
        == o1[DeploymentKind := Restamped(o1[DeploymentKind], stamp2)][ServiceKind := Admitted(NewService(t), ip2)]
  {
    ConvergedWellKinded(t, objects, ip1, stamp1);
    var o1 := Converged(t, objects, ip1, stamp1);
    var secretIsPresent := SecretPresent(t.reader, t.packageIDs);
    var command := CommandLine(t.packages, AppRegistriesOf(t.reader, t.packageIDs));
    var d := o1[DeploymentKind];
    assert d == DeploymentConverged(t, objects, stamp1);
    RefreshOfRefreshed(t, d, command, secretIsPresent, stamp2);
    var rbac := if secretIsPresent then RbacConverged(t, o1) else o1;
    if secretIsPresent {
      RbacConvergedFixed(t, o1);
    }
    assert rbac == o1;
  }

  /** Appending the same port to two hosts gives the same address only for
      the same host. */
  lemma {:induction false} SamePortSameHost(host1: string, host2: string, port: string)
    ensures host1 + port == host2 + port <==> host1 == host2
  {
    if host1 + port == host2 + port {
      assert |host1| == |host2|;
      assert (host1 + port)[..|host1|] == host1;
      assert (host2 + port)[..|host2|] == host2;
    }
  }

  /** Re-running a fault-free Ensure, with the cluster IP the API server
      hands out next: the Deployment's update annotation takes the new
      clock value, the Service is deleted and recreated under the new IP,
      the address follows that IP, and nothing else changes. */
  lemma EnsureAgainRenewsStampAndService(t: Task, c: Cluster, address: string, ip2: string, stamp1: string, stamp2: string)
    requires WellKinded(c.objects) && c.faults == map[]
    ensures var r1 := EnsureSpec(t, c, address, stamp1);
      r1.outcome.Pass? && DeploymentKind in r1.cluster.objects && r1.cluster.objects[DeploymentKind].Deployment?
    ensures var r1 := EnsureSpec(t, c, address, stamp1);
      var r2 := EnsureSpec(t, r1.cluster.(clusterIP := ip2), r1.address, stamp2);
      && r2.outcome.Pass?
      && r2.address == ip2 + ":50051"
      && (r2.address == r1.address <==> ip2 == c.clusterIP)
      && r2.cluster.objects
        == r1.cluster.objects[DeploymentKind := Restamped(r1.cluster.objects[DeploymentKind], stamp2)]
                             [ServiceKind := Admitted(NewService(t), ip2)]
  {
    var r1 := EnsureSpec(t, c, address, stamp1);
    EnsureConvergesWithoutFaults(t, c, address, stamp1);
    ConvergedWellKinded(t, c.objects, c.clusterIP, stamp1);
    EnsureConvergesWithoutFaults(t, r1.cluster.(clusterIP := ip2), r1.address, stamp2);
    ConvergedAgain(t, c.objects, c.clusterIP, ip2, stamp1, stamp2);
    SamePortSameHost(ip2, c.clusterIP, ":50051");
  }

  // ----- conventions of the objects the reconciler builds -----

  /** All objects the reconciler creates share the task's name and
      namespace, Deployment and Service select the same label, the pod
      template carries that label, the service account is named only for a
      private registry, and the RoleBinding binds that service account. */
  lemma NewObjectsShareKeyAndLabel(t: Task, command: seq<string>, needServiceAccount: bool)
    ensures forall k ::
      KindOf(Desired(t, k, command, needServiceAccount)) == k && Desired(t, k, command, needServiceAccount).meta == t.key
    ensures var d := NewDeployment(t, command, needServiceAccount);
      d.selector == NewService(t).selector == d.template.labels == map[SelectorLabelKey := t.key.name]
    ensures NewPodTemplateSpec(t, command, needServiceAccount).serviceAccountName
      == if needServiceAccount then t.key.name else ""
    ensures NewRoleBinding(t, t.key.name).subjects[0].name == NewServiceAccount(t).meta.name
  {
  }
}
