/** The Kubernetes objects the registry reconciler manages, reduced to the
    fields it reads or writes. */
module Objects {

  datatype Option<+T> = None | Some(value: T)

  datatype NamespacedName = NamespacedName(name: string, namespace: string)

  /** The five managed kinds, in the order `Ensure` visits them. */
  datatype Kind = ServiceAccountKind | RoleKind | RoleBindingKind | DeploymentKind | ServiceKind

  /** Position of a kind in the ensure sequence. */
  function Rank(k: Kind): (r: nat)
    ensures r < 5
  {
    match k
    case ServiceAccountKind => 0
    case RoleKind => 1
    case RoleBindingKind => 2
    case DeploymentKind => 3
    case ServiceKind => 4
  }

  /** No two kinds share a position, so the ranks order the kinds strictly. */
  lemma RankInjective(k: Kind, k': Kind)
    ensures Rank(k) == Rank(k') ==> k == k'
  {
  }

  /** Only the ServiceAccount, Role and RoleBinding serve private registries. */
  predicate IsRbacKind(k: Kind) {
    k == ServiceAccountKind || k == RoleKind || k == RoleBindingKind
  }

  datatype PolicyRule = PolicyRule(verbs: seq<string>, apiGroups: seq<string>, resources: seq<string>)

  datatype Subject = Subject(kind: string, name: string, namespace: string)

  datatype Container = Container(name: string, image: string, command: seq<string>)

  datatype PodTemplate = PodTemplate(
    meta: NamespacedName,
    labels: map<string, string>,
    annotations: map<string, string>,
    containers: seq<Container>,
    serviceAccountName: string)

  datatype ServicePort = ServicePort(name: string, port: int, targetPort: int)

  datatype Object =
    | ServiceAccount(meta: NamespacedName)
    | Role(meta: NamespacedName, rules: seq<PolicyRule>)
    | RoleBinding(meta: NamespacedName, subjects: seq<Subject>, roleRef: string)
    | Deployment(meta: NamespacedName, replicas: int, selector: map<string, string>, template: PodTemplate)
    | Service(meta: NamespacedName, ports: seq<ServicePort>, selector: map<string, string>, clusterIP: string)

  function KindOf(o: Object): (k: Kind) {
    match o
    case ServiceAccount(_) => ServiceAccountKind
    case Role(_, _) => RoleKind
    case RoleBinding(_, _, _) => RoleBindingKind
    case Deployment(_, _, _, _) => DeploymentKind
    case Service(_, _, _, _) => ServiceKind
  }
}
