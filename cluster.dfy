/**
 * The API server as the operator sees it: a store of objects keyed by kind,
 * namespace and name, reached through Get, Create and Update round trips.
 * Requests the server rejects for reasons other than NotFound or
 * AlreadyExists (permissions, conflicts, transport) are a fixed set given
 * with the environment. A ghost event log records, in order, every round trip,
 * every component step invoked, every install-plan approval check and every
 * finalization, which is what ordering properties are stated about.
 *
 * Also here: controller-runtime's reconcile result, and the oracles that stand
 * for code whose bodies are not part of this model.
 */
module Cluster {
  import opened Wrappers
  import opened Meta
  import Kubernetes
  import User
  import Gitea
  import UsernameDistribution

  /** The console route the operator derives its addresses from. */
  datatype Route = Route(meta: ObjectMeta, host: string)
  /** An OLM subscription; only its identity and the arguments it was built from are kept. */
  datatype Subscription = Subscription(meta: ObjectMeta, packageName: string, channel: string, startingCSV: string)
  /** A cert-manager custom resource; only its metadata is kept. */
  datatype CertManagerResource = CertManagerResource(meta: ObjectMeta)

  datatype Object =
    | WorkshopObj(workshop: Workshop)
    | RouteObj(route: Route)
    | NamespaceObj(namespace: Kubernetes.Namespace)
    | ServiceAccountObj(serviceAccount: Kubernetes.ServiceAccount)
    | ConfigMapObj(configMap: Kubernetes.ConfigMap)
    | RoleBindingObj(roleBinding: Kubernetes.RoleBinding)
    | UserObj(user: User.OpenShiftUser)
    | SecretObj(secret: User.Secret)
    | IdentityObj(identity: User.Identity)
    | UserIdentityMappingObj(mapping: User.UserIdentityMapping)
    | GiteaObj(gitea: Gitea.Gitea)
    | DeploymentObj(deployment: UsernameDistribution.Deployment)
    | SubscriptionObj(subscription: Subscription)
    | CertManagerObj(certManager: CertManagerResource)

  datatype Kind =
    | WorkshopKind | RouteKind | NamespaceKind | ServiceAccountKind | ConfigMapKind | RoleBindingKind
    | UserKind | SecretKind | IdentityKind | UserIdentityMappingKind | GiteaKind | DeploymentKind
    | SubscriptionKind | CertManagerKind

  datatype Key = Key(kind: Kind, namespace: string, name: string)

  function KindOf(o: Object): (k: Kind)
    ensures k == WorkshopKind <==> o.WorkshopObj?
    ensures k == RouteKind <==> o.RouteObj?
  {
    match o
    case WorkshopObj(_) => WorkshopKind
    case RouteObj(_) => RouteKind
    case NamespaceObj(_) => NamespaceKind
    case ServiceAccountObj(_) => ServiceAccountKind
    case ConfigMapObj(_) => ConfigMapKind
    case RoleBindingObj(_) => RoleBindingKind
    case UserObj(_) => UserKind
    case SecretObj(_) => SecretKind
    case IdentityObj(_) => IdentityKind
    case UserIdentityMappingObj(_) => UserIdentityMappingKind
    case GiteaObj(_) => GiteaKind
    case DeploymentObj(_) => DeploymentKind
    case SubscriptionObj(_) => SubscriptionKind
    case CertManagerObj(_) => CertManagerKind
  }

  function MetaOf(o: Object): ObjectMeta
    requires !o.WorkshopObj?
  {
    match o
    case RouteObj(r) => r.meta
    case NamespaceObj(n) => n.meta
    case ServiceAccountObj(s) => s.meta
    case ConfigMapObj(c) => c.meta
    case RoleBindingObj(r) => r.meta
    case UserObj(u) => u.meta
    case SecretObj(s) => s.meta
    case IdentityObj(i) => i.meta
    case UserIdentityMappingObj(m) => m.meta
    case GiteaObj(g) => g.meta
    case DeploymentObj(d) => d.meta
    case SubscriptionObj(s) => s.meta
    case CertManagerObj(c) => c.meta
  }

  /** The key an object is stored under. */
  function KeyOf(o: Object): Key
  {
    if o.WorkshopObj? then Key(WorkshopKind, o.workshop.namespace, o.workshop.name)
    else Key(KindOf(o), MetaOf(o).namespace, MetaOf(o).name)
  }

  /** The cluster's objects; every object sits under its own key. */
  type Store = m: map<Key, Object> | forall k :: k in m ==> KeyOf(m[k]) == k
    witness map[]

  datatype Verb = GetVerb | CreateVerb | UpdateVerb
  datatype Request = Request(verb: Verb, key: Key)

  datatype Error =
    | NotFound(key: Key)
    | AlreadyExists(key: Key)
    | Rejected(request: Request)   // any other failure of a round trip
    | Failed(reason: string)       // an error produced by code that is not part of this model

  /** controller-runtime's reconcile.Result; RequeueAfter is a time.Duration, which may be negative. */
  datatype ReconcileResult = ReconcileResult(requeue: bool, requeueAfter: int)

  const EmptyResult: ReconcileResult := ReconcileResult(false, 0)

  /** What a reconciliation step returns: Go's (reconcile.Result, error) pair. */
  datatype Reply = Reply(result: ReconcileResult, err: Option<Error>)

  /** ctrl.Result{}, nil */
  const Success: Reply := Reply(EmptyResult, None)

  /** Reply(ctrl.Result{}, err) */
  function Failure(e: Error): Reply
  {
    Reply(EmptyResult, Some(e))
  }

  /** util.IsRequeued: an error, or a result that asks to be run again. */
  predicate IsRequeued(r: Reply)
  {
    r.err.Some? || r.result.requeue || r.result.requeueAfter > 0
  }

  /**
   * A reply that passes the check has a nil error, no requeue flag and a
   * RequeueAfter that is zero or negative; among replies with a
   * non-negative RequeueAfter only the empty result with a nil error passes.
   */
  lemma NotRequeuedIsSuccess(r: Reply)
    ensures !IsRequeued(r) <==> r.err.None? && !r.result.requeue && r.result.requeueAfter <= 0
    ensures r.result.requeueAfter >= 0 ==> (!IsRequeued(r) <==> r == Success)
    ensures !IsRequeued(Success)
  {
  }

  // ---------------------------------------------------------------------
  // Component steps

  datatype Component =
    | Portal | Project | Bookbag | Nexus | Gitea | Pipelines | GitOps
    | CodeReadyWorkspace | ServiceMesh | Serverless | Vault | CertManager

  /** Forward steps are the reconcileX methods, teardown steps the deleteX methods. */
  datatype Phase = Forward | Teardown

  /** The values derived once per pass and handed to the steps. */
  datatype PassArgs = PassArgs(users: nat, appsHostnameSuffix: string, openshiftConsoleURL: string)

  /** One call of a component step, with the workshop object and derived values it is given. */
  datatype Invocation = Invocation(phase: Phase, component: Component, workshop: Workshop, args: PassArgs)

  datatype Event =
    | Call(request: Request)
    | Invoke(invocation: Invocation)
    | ApproveInstallPlan(clusterServiceVersion: string, name: string, namespace: string)
    | Finalize(workshop: string)

  /** The cluster and the record of what a pass did to it. */
  datatype World = World(store: Store, log: seq<Event>)

  /** Code not part of this model, as functions of what it is given. */
  datatype Oracles = Oracles(
    step: (Invocation, Store) -> (Reply, Store),      // every reconcileX/deleteX step except cert-manager's
    finalize: Workshop -> Option<Error>,              // finalizeWorkshop
    approveInstallPlan: (string, string, string) -> bool)  // ApproveInstallPlan(csv, name, namespace) == nil

  datatype Environment = Environment(failing: set<Request>, scheme: Scheme, oracles: Oracles)

  // ---------------------------------------------------------------------
  // Round trips

  function Logged(w: World, e: Event): (w': World)
    ensures w'.store == w.store && w'.log == w.log + [e]
  {
    w.(log := w.log + [e])
  }

  /** r.Get: the object under `key`, NotFound, or a rejection. */
  function Get(failing: set<Request>, w: World, key: Key): (r: (Result<Object, Error>, World))
    ensures r.1 == Logged(w, Call(Request(GetVerb, key)))
    ensures r.0.Ok? <==> Request(GetVerb, key) !in failing && key in w.store
    ensures r.0.Ok? ==> r.0.value == w.store[key] && KeyOf(r.0.value) == key
    ensures r.0.Err? && Request(GetVerb, key) !in failing ==> r.0.error == NotFound(key)
  {
    var req := Request(GetVerb, key);
    var w' := Logged(w, Call(req));
    if req in failing then (Err(Rejected(req)), w')
    else if key !in w.store then (Err(NotFound(key)), w')
    else (Ok(w.store[key]), w')
  }

  /**
   * r.Create: stores `obj` under its key unless the request is rejected or
   * something is already stored there (AlreadyExists, nothing changes).
   */
  function Create(failing: set<Request>, w: World, obj: Object): (r: (Option<Error>, World))
    ensures r.1.log == w.log + [Call(Request(CreateVerb, KeyOf(obj)))]
    ensures r.0.None? <==> Request(CreateVerb, KeyOf(obj)) !in failing && KeyOf(obj) !in w.store
    ensures r.0.None? ==> r.1.store == w.store[KeyOf(obj) := obj]
    ensures r.0.Some? ==> r.1.store == w.store
    ensures r.0 == Some(AlreadyExists(KeyOf(obj))) <==>
              Request(CreateVerb, KeyOf(obj)) !in failing && KeyOf(obj) in w.store
  {
    var key := KeyOf(obj);
    var req := Request(CreateVerb, key);
    var w' := Logged(w, Call(req));
    if req in failing then (Some(Rejected(req)), w')
    else if key in w.store then (Some(AlreadyExists(key)), w')
    else (None, w'.(store := w.store[key := obj]))
  }

  /**
   * A Workshop whose deletion has been requested and whose last finalizer is
   * gone: the API server deletes such an object as soon as it is written.
   */
  predicate Released(obj: Object)
  {
    obj.WorkshopObj? && obj.workshop.deletionTimestamp.Some? && obj.workshop.finalizers == []
  }

  /**
   * r.Update: replaces the object under its key, which must exist. An update
   * that releases a Workshop deletes it from the store instead.
   */
  function Update(failing: set<Request>, w: World, obj: Object): (r: (Option<Error>, World))
    ensures r.1.log == w.log + [Call(Request(UpdateVerb, KeyOf(obj)))]
    ensures r.0.None? <==> Request(UpdateVerb, KeyOf(obj)) !in failing && KeyOf(obj) in w.store
    ensures r.0.None? && !Released(obj) ==> r.1.store == w.store[KeyOf(obj) := obj]
    ensures r.0.None? && Released(obj) ==> r.1.store == w.store - {KeyOf(obj)}
    ensures r.0.Some? ==> r.1.store == w.store
  {
    var key := KeyOf(obj);
    var req := Request(UpdateVerb, key);
    var w' := Logged(w, Call(req));
    if req in failing then (Some(Rejected(req)), w')
    else if key !in w.store then (Some(NotFound(key)), w')
    else if Released(obj) then (None, w'.(store := w.store - {key}))
    else (None, w'.(store := w.store[key := obj]))
  }

  /** The component steps a log shows were invoked, in order. */
  function Invoked(log: seq<Event>): (r: seq<Invocation>)
    ensures |r| <= |log|
  {
    if log == [] then []
    else Invoked(log[..|log| - 1]) + (if log[|log| - 1].Invoke? then [log[|log| - 1].invocation] else [])
  }

  lemma {:induction false} InvokedAppend(a: seq<Event>, b: seq<Event>)
    ensures Invoked(a + b) == Invoked(a) + Invoked(b)
    decreases |b|
  {
    if b == [] {
      assert a + b == a;
    } else {
      var b' := b[..|b| - 1];
      assert (a + b)[..|a + b| - 1] == a + b';
      InvokedAppend(a, b');
    }
  }

  /** An event other than an invocation leaves the invoked steps as they were. */
  lemma LoggedNoInvocation(w: World, e: Event)
    requires !e.Invoke?
    ensures Invoked(Logged(w, e).log) == Invoked(w.log)
  {
    assert Logged(w, e).log[..|w.log|] == w.log;
  }

  /** A create leaves the invoked steps as they were. */
  lemma CreateNoInvocation(failing: set<Request>, w: World, obj: Object)
    ensures Invoked(Create(failing, w, obj).1.log) == Invoked(w.log)
  {
    LoggedNoInvocation(w, Call(Request(CreateVerb, KeyOf(obj))));
  }

  /** An update leaves the invoked steps as they were. */
  lemma UpdateNoInvocation(failing: set<Request>, w: World, obj: Object)
    ensures Invoked(Update(failing, w, obj).1.log) == Invoked(w.log)
  {
    LoggedNoInvocation(w, Call(Request(UpdateVerb, KeyOf(obj))));
  }
}
