/**
 * The Workshop custom resource (only the fields the modelled code reads),
 * object metadata, owner references and the part of controller-runtime's
 * SetControllerReference that decides whether an owner reference is attached.
 */
module Meta {
  import opened Wrappers

  /** The finalizer the operator puts on every Workshop it manages. */
  const WorkshopFinalizer: string := "finalizer.workshop.stakater.com"

  datatype UserSpec = UserSpec(number: int, password: string)
  datatype SourceSpec = SourceSpec(gitURL: string, gitBranch: string)
  datatype CertManagerSpec = CertManagerSpec(enabled: bool, channel: string, clusterServiceVersion: string)
  /** Guide.Scholars: the guide map goes from guide name to guide URL. */
  datatype ScholarsSpec = ScholarsSpec(enabled: bool, guideURL: map<string, string>)
  datatype InfrastructureSpec = InfrastructureSpec(certManager: CertManagerSpec, scholars: ScholarsSpec)
  datatype WorkshopSpec = WorkshopSpec(user: UserSpec, source: SourceSpec, infrastructure: InfrastructureSpec)

  /** A Workshop object as read from the API server. */
  datatype Workshop = Workshop(
    name: string,
    namespace: string,
    uid: string,
    deletionTimestamp: Option<int>,
    finalizers: seq<string>,
    spec: WorkshopSpec)

  /** An owner reference as SetControllerReference writes it. */
  datatype OwnerRef = OwnerRef(
    apiVersion: string,
    kind: string,
    name: string,
    uid: string,
    controller: bool,
    blockOwnerDeletion: bool)

  datatype ObjectMeta = ObjectMeta(
    name: string,
    namespace: string,
    labels: map<string, string>,
    ownerReferences: seq<OwnerRef>)

  /** Metadata carrying a name and nothing else (cluster-scoped objects, users, identities). */
  function NamedMeta(name: string): (m: ObjectMeta)
    ensures m.name == name && m.namespace == "" && m.labels == map[] && m.ownerReferences == []
  {
    ObjectMeta(name, "", map[], [])
  }

  /** The runtime scheme: all that matters here is whether it can name the Workshop kind. */
  datatype Scheme = Scheme(registersWorkshop: bool)

  /** The controller reference that names `workshop` as owner. */
  function ControllerRefTo(workshop: Workshop): (r: OwnerRef)
    ensures r.kind == "Workshop" && r.name == workshop.name && r.uid == workshop.uid
    ensures r.controller && r.blockOwnerDeletion
  {
    OwnerRef("workshop.stakater.com/v1", "Workshop", workshop.name, workshop.uid, true, true)
  }

  /**
   * SetControllerReference succeeds on a freshly built object exactly when the
   * scheme knows the owner's kind and the owner's namespace admits the object:
   * a namespaced owner may own only objects in its own namespace (a
   * cluster-scoped object has namespace "").
   */
  predicate OwnerAccepted(workshop: Workshop, scheme: Scheme, objectNamespace: string)
  {
    scheme.registersWorkshop && (workshop.namespace == "" || workshop.namespace == objectNamespace)
  }

  /**
   * SetControllerReference(workshop, obj, scheme) on an object that has no owner
   * yet. On failure the factories only log the error, so the metadata comes back
   * unchanged.
   */
  function WithControllerReference(meta: ObjectMeta, workshop: Workshop, scheme: Scheme): (m: ObjectMeta)
    requires meta.ownerReferences == []
    ensures m.name == meta.name && m.namespace == meta.namespace && m.labels == meta.labels
    ensures OwnerAccepted(workshop, scheme, meta.namespace) ==> m.ownerReferences == [ControllerRefTo(workshop)]
    ensures !OwnerAccepted(workshop, scheme, meta.namespace) ==> m.ownerReferences == []
  {
    if OwnerAccepted(workshop, scheme, meta.namespace)
    then meta.(ownerReferences := [ControllerRefTo(workshop)])
    else meta
  }

  /** controllerutil.AddFinalizer: appends `f` unless it is already listed. */
  function AddFinalizer(finalizers: seq<string>, f: string): (r: seq<string>)
    ensures f in r
    ensures forall g :: g in r <==> g in finalizers || g == f
    ensures finalizers <= r && |r| <= |finalizers| + 1
  {
    if f in finalizers then finalizers else finalizers + [f]
  }

  /** controllerutil.RemoveFinalizer: drops every occurrence of `f`. */
  function RemoveFinalizer(finalizers: seq<string>, f: string): (r: seq<string>)
    ensures f !in r
    ensures forall g :: g in r <==> g in finalizers && g != f
    ensures |r| <= |finalizers|
  {
    if finalizers == [] then []
    else if finalizers[0] == f then RemoveFinalizer(finalizers[1..], f)
    else [finalizers[0]] + RemoveFinalizer(finalizers[1..], f)
  }

  /** Removing a finalizer that is absent changes nothing. */
  lemma {:induction false} RemoveAbsentFinalizer(finalizers: seq<string>, f: string)
    requires f !in finalizers
    ensures RemoveFinalizer(finalizers, f) == finalizers
  {
    if finalizers != [] {
      RemoveAbsentFinalizer(finalizers[1..], f);
    }
  }

  /** Adding a finalizer that was absent and removing it again restores the list. */
  lemma {:induction false} AddRemoveFinalizer(finalizers: seq<string>, f: string)
    requires f !in finalizers
    ensures RemoveFinalizer(AddFinalizer(finalizers, f), f) == finalizers
  {
    if finalizers == [] {
      assert AddFinalizer(finalizers, f) == [f];
      assert [f][1..] == [];
    } else {
      var added := AddFinalizer(finalizers, f);
      assert added == finalizers + [f];
      assert added[1..] == AddFinalizer(finalizers[1..], f);
      AddRemoveFinalizer(finalizers[1..], f);
    }
  }
}
