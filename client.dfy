/** An abstract object store standing in for the cluster API client. Not-found
    and already-exists answers follow from the store's contents; every other
    failure is injected through a fault table. Each call is logged, so that
    properties about which calls happen, and in which order, can be stated. */
module Client {
  import opened Objects

  datatype Verb = Get | Create | Update | Delete

  datatype Call = Call(kind: Kind, verb: Verb)

  datatype ApiError = ApiError(call: Call, reason: string)

  datatype ApiResult = Ok | AlreadyExists | Failed(error: ApiError)

  /** The store (one object per kind, all under the task's key), the
      injected faults, the cluster IP the API server assigns to the next
      Service it admits, and the log of calls made so far. */
  datatype Cluster = Cluster(
    objects: map<Kind, Object>,
    faults: map<Call, string>,
    clusterIP: string,
    log: seq<Call>)

  /** Every stored object sits under its own kind. */
  ghost predicate WellKinded(objects: map<Kind, Object>) {
    forall k :: k in objects ==> KindOf(objects[k]) == k
  }

  /** `c'` follows `c` by calls on kind `k` only: the environment is the same,
      the log is extended by calls of kind `k`, and the objects of every other
      kind are untouched. */
  ghost predicate OnlyTouches(c: Cluster, c': Cluster, k: Kind) {
    && c'.faults == c.faults
    && c'.clusterIP == c.clusterIP
    && |c.log| <= |c'.log|
    && c'.log[..|c.log|] == c.log
    && (forall i :: |c.log| <= i < |c'.log| ==> c'.log[i].kind == k)
    && (forall k' :: k' != k ==> (k' in c'.objects <==> k' in c.objects))
    && (forall k' :: k' != k && k' in c.objects ==> c'.objects[k'] == c.objects[k'])
  }

  /** The object `o` as the API server stores it: a Service is assigned the
      cluster IP. */
  function Admitted(o: Object, clusterIP: string): (r: Object)
    ensures KindOf(r) == KindOf(o)
    ensures r.Service? ==> r == o.(clusterIP := clusterIP)
    ensures !r.Service? ==> r == o
  {
    if o.Service? then o.(clusterIP := clusterIP) else o
  }

  datatype Fetched = Fetched(cluster: Cluster, found: Option<Object>)

  datatype Written = Written(cluster: Cluster, result: ApiResult, obj: Object)

  /** client.Get by the task's key. */
  function GetObject(c: Cluster, k: Kind): (r: Fetched)
    ensures r.cluster == c.(log := c.log + [Call(k, Get)])
    ensures r.found.Some? <==> k in c.objects && Call(k, Get) !in c.faults
    ensures r.found.Some? ==> r.found.value == c.objects[k]
  {
    var c' := c.(log := c.log + [Call(k, Get)]);
    if k in c.objects && Call(k, Get) !in c.faults then Fetched(c', Some(c.objects[k]))
    else Fetched(c', None)
  }

  /** client.Create: stores the object unless its kind is already present;
      `obj` is the caller's object as the client leaves it (filled in
      from the server's answer only on success). */
  function CreateObject(c: Cluster, o: Object): (r: Written)
    ensures OnlyTouches(c, r.cluster, KindOf(o)) && r.cluster.log == c.log + [Call(KindOf(o), Create)]
    ensures WellKinded(c.objects) ==> WellKinded(r.cluster.objects)
    ensures r.result.Failed? <==> Call(KindOf(o), Create) in c.faults
    ensures r.result.Failed? ==> r.result.error.call == Call(KindOf(o), Create)
    ensures r.result.AlreadyExists? <==> Call(KindOf(o), Create) !in c.faults && KindOf(o) in c.objects
    ensures r.result.Ok? ==>
      && r.obj == Admitted(o, c.clusterIP)
      && r.cluster.objects == c.objects[KindOf(o) := r.obj]
    ensures !r.result.Ok? ==> r.obj == o && r.cluster.objects == c.objects
  {
    var call := Call(KindOf(o), Create);
    var c' := c.(log := c.log + [call]);
    if call in c.faults then Written(c', Failed(ApiError(call, c.faults[call])), o)
    else if KindOf(o) in c.objects then Written(c', AlreadyExists, o)
    else
      var stored := Admitted(o, c.clusterIP);
      Written(c'.(objects := c.objects[KindOf(o) := stored]), Ok, stored)
  }

  /** client.Update: replaces the stored object of the same kind; updating
      an absent object fails as not found. */
  function UpdateObject(c: Cluster, o: Object): (r: Written)
    ensures OnlyTouches(c, r.cluster, KindOf(o)) && r.cluster.log == c.log + [Call(KindOf(o), Update)]
    ensures WellKinded(c.objects) ==> WellKinded(r.cluster.objects)
    ensures r.result != AlreadyExists
    ensures r.result.Ok? <==> Call(KindOf(o), Update) !in c.faults && KindOf(o) in c.objects
    ensures r.result.Failed? ==> r.result.error.call == Call(KindOf(o), Update)
    ensures r.result.Ok? ==> r.cluster.objects == c.objects[KindOf(o) := o]
    ensures !r.result.Ok? ==> r.cluster.objects == c.objects
    ensures r.obj == o
  {
    var call := Call(KindOf(o), Update);
    var c' := c.(log := c.log + [call]);
    if call in c.faults then Written(c', Failed(ApiError(call, c.faults[call])), o)
    else if KindOf(o) !in c.objects then Written(c', Failed(ApiError(call, "not found")), o)
    else Written(c'.(objects := c.objects[KindOf(o) := o]), Ok, o)
  }

  /** client.Delete: removes the stored object of that kind; deleting an
      absent object fails as not found. */
  function DeleteObject(c: Cluster, k: Kind): (r: Written)
    requires k in c.objects
    ensures OnlyTouches(c, r.cluster, k) && r.cluster.log == c.log + [Call(k, Delete)]
    ensures WellKinded(c.objects) ==> WellKinded(r.cluster.objects)
    ensures r.result != AlreadyExists
    ensures r.result.Ok? <==> Call(k, Delete) !in c.faults
    ensures r.result.Ok? ==> r.cluster.objects == c.objects - {k}
    ensures !r.result.Ok? ==> r.cluster.objects == c.objects
  {
    var call := Call(k, Delete);
    var c' := c.(log := c.log + [call]);
    if call in c.faults then Written(c', Failed(ApiError(call, c.faults[call])), c.objects[k])
    else Written(c'.(objects := c.objects - {k}), Ok, c.objects[k])
  }
}
