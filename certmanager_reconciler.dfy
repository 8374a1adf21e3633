/**
 * The cert-manager component step (controllers/certmanager_reconciler.go) as
 * a function of the cluster: subscribe to the operator, wait for its install
 * plan to be approved, then create the cert-manager namespace and the
 * cert-manager custom resource. Every creation treats AlreadyExists as
 * success, so the step is create-if-absent.
 *
 * The methods that run these steps against the cluster are
 * WorkshopReconciler.ReconcileCertManager and WorkshopReconciler.AddCertManager
 * (module Controller); their contracts equate their effect with the functions
 * here.
 */
module CertManagerReconciler {
  import opened Wrappers
  import opened Meta
  import opened Cluster
  import Kubernetes

  const OperatorName: string := "cert-manager-operator"
  const OperatorNamespace: string := "openshift-operators"
  const CertManagerName: string := "cert-manager"
  const PartOfLabels: map<string, string> := map["app.kubernetes.io/part-of" := "certmanager"]

  /** The requeue-now reply returned while the install plan is not approved. */
  const RequeueNow: Reply := Reply(ReconcileResult(true, 0), None)

  /** The subscription kubernetes.NewCertifiedSubscription builds, reduced to its identity and arguments. */
  function NewCertifiedSubscription(workshop: Workshop, scheme: Scheme, name: string, namespace: string,
                                    packageName: string, channel: string, csv: string): (s: Subscription)
    ensures s.meta.name == name && s.meta.namespace == namespace
  {
    Subscription(ObjectMeta(name, namespace, map[], []), packageName, channel, csv)
  }

  /** The custom resource certmanager.NewCustomResource builds, reduced to its metadata. */
  function NewCertManagerResource(workshop: Workshop, scheme: Scheme, name: string, namespace: string,
                                  labels: map<string, string>): (cr: CertManagerResource)
    ensures cr.meta.name == name && cr.meta.namespace == namespace && cr.meta.labels == labels
  {
    CertManagerResource(ObjectMeta(name, namespace, labels, []))
  }

  const SubscriptionKey: Key := Key(SubscriptionKind, OperatorNamespace, OperatorName)
  const NamespaceKey: Key := Key(NamespaceKind, "", CertManagerName)
  const ResourceKey: Key := Key(CertManagerKind, CertManagerName, CertManagerName)

  /** A creation outcome the step carries on after: success or AlreadyExists. */
  predicate Tolerated(e: Option<Error>)
  {
    e.None? || e.value.AlreadyExists?
  }

  /** addCertManager */
  function AddCertManager(env: Environment, workshop: Workshop, users: int, w: World): (r: (Reply, World))
  {
    var channel := workshop.spec.infrastructure.certManager.channel;
    var csv := workshop.spec.infrastructure.certManager.clusterServiceVersion;
    var subscription := NewCertifiedSubscription(workshop, env.scheme, OperatorName, OperatorNamespace,
                                                 OperatorName, channel, csv);
    var (subErr, w1) := Create(env.failing, w, SubscriptionObj(subscription));
    if !Tolerated(subErr) then (Failure(subErr.value), w1)
    else
      var w2 := Logged(w1, ApproveInstallPlan(csv, OperatorName, OperatorNamespace));
      if !env.oracles.approveInstallPlan(csv, OperatorName, OperatorNamespace) then (RequeueNow, w2)
      else
        var namespace := Kubernetes.NewNamespace(workshop, env.scheme, CertManagerName);
        var (nsErr, w3) := Create(env.failing, w2, NamespaceObj(namespace));
        if !Tolerated(nsErr) then (Failure(nsErr.value), w3)
        else
          var resource := NewCertManagerResource(workshop, env.scheme, CertManagerName, namespace.meta.name,
                                                 PartOfLabels);
          var (crErr, w4) := Create(env.failing, w3, CertManagerObj(resource));
          if !Tolerated(crErr) then (Failure(crErr.value), w4)
          else (Success, w4)
  }

  /** reconcileCertManager: addCertManager when cert-manager is enabled, otherwise nothing. */
  function ReconcileCertManager(env: Environment, workshop: Workshop, users: int, w: World): (r: (Reply, World))
  {
    if workshop.spec.infrastructure.certManager.enabled then
      var (reply, w1) := AddCertManager(env, workshop, users, w);
      if IsRequeued(reply) then (reply, w1) else (Success, w1)
    else (Success, w)
  }

  // ---------------------------------------------------------------------
  // Properties

  const SubscriptionCreate: Request := Request(CreateVerb, SubscriptionKey)
  const NamespaceCreate: Request := Request(CreateVerb, NamespaceKey)
  const ResourceCreate: Request := Request(CreateVerb, ResourceKey)

  function ApprovalCheck(workshop: Workshop): Event
  {
    ApproveInstallPlan(workshop.spec.infrastructure.certManager.clusterServiceVersion, OperatorName, OperatorNamespace)
  }

  predicate Approved(env: Environment, workshop: Workshop)
  {
    env.oracles.approveInstallPlan(workshop.spec.infrastructure.certManager.clusterServiceVersion,
                                   OperatorName, OperatorNamespace)
  }

  /** The three objects the step creates, as it builds them. */
  function SubscriptionObject(env: Environment, workshop: Workshop): Object
  {
    SubscriptionObj(NewCertifiedSubscription(workshop, env.scheme, OperatorName, OperatorNamespace, OperatorName,
                                             workshop.spec.infrastructure.certManager.channel,
                                             workshop.spec.infrastructure.certManager.clusterServiceVersion))
  }

  function NamespaceObject(env: Environment, workshop: Workshop): Object
  {
    NamespaceObj(Kubernetes.NewNamespace(workshop, env.scheme, CertManagerName))
  }

  function ResourceObject(env: Environment, workshop: Workshop): Object
  {
    CertManagerObj(NewCertManagerResource(workshop, env.scheme, CertManagerName, CertManagerName, PartOfLabels))
  }

  lemma ObjectKeys(env: Environment, workshop: Workshop)
    ensures KeyOf(SubscriptionObject(env, workshop)) == SubscriptionKey
    ensures KeyOf(NamespaceObject(env, workshop)) == NamespaceKey
    ensures KeyOf(ResourceObject(env, workshop)) == ResourceKey
  {
  }

  /**
   * AddCertManager as the successive round trips it makes: each stage is
   * reached only if the previous one was tolerated.
   */
  lemma {:induction false} AddCertManagerStages(env: Environment, workshop: Workshop, users: int, w: World)
    ensures var (e1, w1) := Create(env.failing, w, SubscriptionObject(env, workshop));
      var w2 := Logged(w1, ApprovalCheck(workshop));
      var (e2, w3) := Create(env.failing, w2, NamespaceObject(env, workshop));
      var (e3, w4) := Create(env.failing, w3, ResourceObject(env, workshop));
      AddCertManager(env, workshop, users, w)
      == if !Tolerated(e1) then (Failure(e1.value), w1)
         else if !Approved(env, workshop) then (RequeueNow, w2)
         else if !Tolerated(e2) then (Failure(e2.value), w3)
         else if !Tolerated(e3) then (Failure(e3.value), w4)
         else (Success, w4)
  {
  }

  /** With cert-manager disabled the step succeeds without a single round trip. */
  lemma DisabledDoesNothing(env: Environment, workshop: Workshop, users: int, w: World)
    requires !workshop.spec.infrastructure.certManager.enabled
    ensures ReconcileCertManager(env, workshop, users, w) == (Success, w)
  {
  }

  /**
   * A rejected subscription request ends the step with that error and an empty
   * result; nothing else is attempted and the cluster is unchanged.
   */
  lemma SubscriptionRejectionStops(env: Environment, workshop: Workshop, users: int, w: World)
    requires SubscriptionCreate in env.failing
    ensures AddCertManager(env, workshop, users, w)
            == (Failure(Rejected(SubscriptionCreate)), World(w.store, w.log + [Call(SubscriptionCreate)]))
  {
  }

  /**
   * While the install plan is not approved the step asks to be requeued with
   * no error, after creating at most the subscription: neither the
   * cert-manager namespace nor the custom resource is attempted.
   */
  lemma PendingApprovalRequeues(env: Environment, workshop: Workshop, users: int, w: World)
    requires SubscriptionCreate !in env.failing
    requires !Approved(env, workshop)
    ensures var r := AddCertManager(env, workshop, users, w);
      && r.0 == RequeueNow
      && IsRequeued(r.0) && r.0.err.None?
      && r.1.log == w.log + [Call(SubscriptionCreate), ApprovalCheck(workshop)]
      && r.1.store.Keys == w.store.Keys + {SubscriptionKey}
  {
    AddCertManagerStages(env, workshop, users, w);
    ObjectKeys(env, workshop);
    CreateKeeps(env.failing, w, SubscriptionObject(env, workshop));
  }

  /**
   * A rejected namespace request ends the step with that error; the custom
   * resource is not attempted.
   */
  lemma NamespaceRejectionSkipsResource(env: Environment, workshop: Workshop, users: int, w: World)
    requires SubscriptionCreate !in env.failing && Approved(env, workshop)
    requires NamespaceCreate in env.failing
    ensures var r := AddCertManager(env, workshop, users, w);
      && r.0 == Failure(Rejected(NamespaceCreate))
      && r.1.log == w.log + [Call(SubscriptionCreate), ApprovalCheck(workshop), Call(NamespaceCreate)]
      && r.1.store.Keys == w.store.Keys + {SubscriptionKey}
  {
    AddCertManagerStages(env, workshop, users, w);
    ObjectKeys(env, workshop);
    CreateKeeps(env.failing, w, SubscriptionObject(env, workshop));
  }

  /**
   * When no request is rejected and the install plan is approved, the step
   * succeeds after creating, in this order, the subscription, the
   * cert-manager namespace and the cert-manager custom resource.
   */
  lemma {:induction false} ApprovedStepConverges(env: Environment, workshop: Workshop, users: int, w: World)
    requires SubscriptionCreate !in env.failing && NamespaceCreate !in env.failing && ResourceCreate !in env.failing
    requires Approved(env, workshop)
    ensures var r := AddCertManager(env, workshop, users, w);
      && r.0 == Success
      && r.1.log == w.log + [Call(SubscriptionCreate), ApprovalCheck(workshop), Call(NamespaceCreate),
                             Call(ResourceCreate)]
  {
    ObjectKeys(env, workshop);
    var (e1, w1) := Create(env.failing, w, SubscriptionObject(env, workshop));
    var w2 := Logged(w1, ApprovalCheck(workshop));
    var (e2, w3) := Create(env.failing, w2, NamespaceObject(env, workshop));
    var (e3, w4) := Create(env.failing, w3, ResourceObject(env, workshop));
    assert Tolerated(e1) && Tolerated(e2) && Tolerated(e3);
    AddCertManagerStages(env, workshop, users, w);
    CreateSequenceLog(env, workshop, w);
  }

  /**
   * Under the same conditions the three objects are in the cluster afterwards;
   * each one that was absent is stored as the step builds it, so the custom
   * resource lives in the cert-manager namespace and is labelled as part of
   * certmanager.
   */
  lemma {:induction false} ApprovedStepStore(env: Environment, workshop: Workshop, users: int, w: World)
    requires SubscriptionCreate !in env.failing && NamespaceCreate !in env.failing && ResourceCreate !in env.failing
    requires Approved(env, workshop)
    ensures var r := AddCertManager(env, workshop, users, w);
      && r.1.store.Keys == w.store.Keys + {SubscriptionKey, NamespaceKey, ResourceKey}
      && (ResourceKey !in w.store ==>
            r.1.store[ResourceKey] == CertManagerObj(CertManagerResource(
              ObjectMeta(CertManagerName, CertManagerName, PartOfLabels, []))))
      && (NamespaceKey !in w.store ==>
            r.1.store[NamespaceKey] == NamespaceObj(Kubernetes.NewNamespace(workshop, env.scheme, CertManagerName)))
  {
    ApprovedStepConverges(env, workshop, users, w);
    AddCertManagerStages(env, workshop, users, w);
    CreateSequenceStore(env, workshop, w);
    assert ResourceObject(env, workshop)
        == CertManagerObj(CertManagerResource(ObjectMeta(CertManagerName, CertManagerName, PartOfLabels, [])));
  }

  /** The store the three accepted creations leave. */
  lemma CreateSequenceStore(env: Environment, workshop: Workshop, w: World)
    requires SubscriptionCreate !in env.failing && NamespaceCreate !in env.failing && ResourceCreate !in env.failing
    ensures var (_, w1) := Create(env.failing, w, SubscriptionObject(env, workshop));
      var w2 := Logged(w1, ApprovalCheck(workshop));
      var (_, w3) := Create(env.failing, w2, NamespaceObject(env, workshop));
      var (_, w4) := Create(env.failing, w3, ResourceObject(env, workshop));
      && w4.store.Keys == w.store.Keys + {SubscriptionKey, NamespaceKey, ResourceKey}
      && (ResourceKey !in w.store ==> w4.store[ResourceKey] == ResourceObject(env, workshop))
      && (NamespaceKey !in w.store ==> w4.store[NamespaceKey] == NamespaceObject(env, workshop))
  {
    ObjectKeys(env, workshop);
    AcceptedCreates(env.failing, w, ApprovalCheck(workshop),
                    SubscriptionObject(env, workshop), NamespaceObject(env, workshop), ResourceObject(env, workshop));
  }

  /** Three accepted creations of distinct keys, with an event logged after the first. */
  lemma AcceptedCreates(failing: set<Request>, w: World, e: Event, o1: Object, o2: Object, o3: Object)
    requires Request(CreateVerb, KeyOf(o1)) !in failing && Request(CreateVerb, KeyOf(o2)) !in failing
    requires Request(CreateVerb, KeyOf(o3)) !in failing
    requires KeyOf(o1) != KeyOf(o2) && KeyOf(o1) != KeyOf(o3) && KeyOf(o2) != KeyOf(o3)
    ensures var (_, w1) := Create(failing, w, o1);
      var (_, w3) := Create(failing, Logged(w1, e), o2);
      var (_, w4) := Create(failing, w3, o3);
      && w4.store.Keys == w.store.Keys + {KeyOf(o1), KeyOf(o2), KeyOf(o3)}
      && (KeyOf(o3) !in w.store ==> w4.store[KeyOf(o3)] == o3)
      && (KeyOf(o2) !in w.store ==> w4.store[KeyOf(o2)] == o2)
  {
    var (_, w1) := Create(failing, w, o1);
    var w2 := Logged(w1, e);
    var (_, w3) := Create(failing, w2, o2);
    var (_, w4) := Create(failing, w3, o3);
    CreateAccepted(failing, w, o1);
    CreateAccepted(failing, w2, o2);
    CreateAccepted(failing, w3, o3);
    ThreeAdditions(w.store, w1.store, w3.store, w4.store, KeyOf(o1), KeyOf(o2), KeyOf(o3), o2, o3);
  }

  /** Map reasoning behind AcceptedCreates: three additions of distinct keys that keep what was there. */
  lemma ThreeAdditions(s0: map<Key, Object>, s1: map<Key, Object>, s2: map<Key, Object>, s3: map<Key, Object>,
                       k1: Key, k2: Key, k3: Key, o2: Object, o3: Object)
    requires k1 != k2 && k1 != k3 && k2 != k3
    requires s1.Keys == s0.Keys + {k1}
    requires s2.Keys == s1.Keys + {k2} && (forall k :: k in s1 ==> s2[k] == s1[k]) && (k2 !in s1 ==> s2[k2] == o2)
    requires s3.Keys == s2.Keys + {k3} && (forall k :: k in s2 ==> s3[k] == s2[k]) && (k3 !in s2 ==> s3[k3] == o3)
    ensures s3.Keys == s0.Keys + {k1, k2, k3}
    ensures k3 !in s0 ==> s3[k3] == o3
    ensures k2 !in s0 ==> s3[k2] == o2
  {
    if k2 !in s0 {
      assert k2 !in s1 && k2 in s2;
    }
    if k3 !in s0 {
      assert k3 !in s2;
    }
  }

  /** The log the three creations and the approval check leave, in order. */
  lemma CreateSequenceLog(env: Environment, workshop: Workshop, w: World)
    ensures var (_, w1) := Create(env.failing, w, SubscriptionObject(env, workshop));
      var w2 := Logged(w1, ApprovalCheck(workshop));
      var (_, w3) := Create(env.failing, w2, NamespaceObject(env, workshop));
      var (_, w4) := Create(env.failing, w3, ResourceObject(env, workshop));
      w4.log == w.log + [Call(SubscriptionCreate), ApprovalCheck(workshop), Call(NamespaceCreate),
                         Call(ResourceCreate)]
  {
    ObjectKeys(env, workshop);
    CreatesLog(env.failing, w, ApprovalCheck(workshop),
               SubscriptionObject(env, workshop), NamespaceObject(env, workshop), ResourceObject(env, workshop));
  }

  /** The log of three creations with an event logged after the first. */
  lemma CreatesLog(failing: set<Request>, w: World, e: Event, o1: Object, o2: Object, o3: Object)
    ensures var (_, w1) := Create(failing, w, o1);
      var (_, w3) := Create(failing, Logged(w1, e), o2);
      var (_, w4) := Create(failing, w3, o3);
      w4.log == w.log + [Call(Request(CreateVerb, KeyOf(o1))), e, Call(Request(CreateVerb, KeyOf(o2))),
                         Call(Request(CreateVerb, KeyOf(o3)))]
  {
    var (_, w1) := Create(failing, w, o1);
    var w2 := Logged(w1, e);
    var (_, w3) := Create(failing, w2, o2);
    assert w2.log == w.log + [Call(Request(CreateVerb, KeyOf(o1))), e];
    assert w3.log == w.log + [Call(Request(CreateVerb, KeyOf(o1))), e, Call(Request(CreateVerb, KeyOf(o2)))];
  }

  /**
   * A create that is not rejected is tolerated, adds its key, keeps every
   * other object and stores the new object when the key was free.
   */
  lemma CreateAccepted(failing: set<Request>, w: World, obj: Object)
    requires Request(CreateVerb, KeyOf(obj)) !in failing
    ensures var (e, w') := Create(failing, w, obj);
      && Tolerated(e)
      && w'.store.Keys == w.store.Keys + {KeyOf(obj)}
      && (forall k :: k in w.store ==> w'.store[k] == w.store[k])
      && (KeyOf(obj) !in w.store ==> w'.store[KeyOf(obj)] == obj)
  {
  }

  /** Any create keeps every object already present and adds at most its own key. */
  lemma CreateKeeps(failing: set<Request>, w: World, obj: Object)
    ensures var (e, w') := Create(failing, w, obj);
      && w'.store.Keys <= w.store.Keys + {KeyOf(obj)}
      && (forall k :: k in w.store ==> k in w'.store && w'.store[k] == w.store[k])
      && (e.Some? ==> e.value.Rejected? || e.value.AlreadyExists?)
  {
  }

  /**
   * Idempotence: once the three objects exist and the plan is approved, running
   * the step again leaves the cluster as it is and succeeds again.
   */
  lemma {:induction false} RerunIsIdempotent(env: Environment, workshop: Workshop, users: int, w: World)
    requires workshop.spec.infrastructure.certManager.enabled
    requires SubscriptionCreate !in env.failing && NamespaceCreate !in env.failing && ResourceCreate !in env.failing
    requires Approved(env, workshop)
    requires SubscriptionKey in w.store && NamespaceKey in w.store && ResourceKey in w.store
    ensures var r := ReconcileCertManager(env, workshop, users, w);
      r.0 == Success && r.1.store == w.store
  {
    AddCertManagerStages(env, workshop, users, w);
    ObjectKeys(env, workshop);
  }

  /**
   * The step only ever adds the subscription, the namespace and the custom
   * resource, and never changes an object already in the cluster; its reply
   * is success, requeue-now without error, or a rejection.
   */
  lemma {:induction false} OnlyCreates(env: Environment, workshop: Workshop, users: int, w: World)
    ensures var r := ReconcileCertManager(env, workshop, users, w);
      && (forall k :: k in w.store ==> k in r.1.store && r.1.store[k] == w.store[k])
      && r.1.store.Keys <= w.store.Keys + {SubscriptionKey, NamespaceKey, ResourceKey}
      && (r.0 == Success || r.0 == RequeueNow || (r.0.result == EmptyResult && r.0.err.Some? && r.0.err.value.Rejected?))
  {
    if workshop.spec.infrastructure.certManager.enabled {
      AddCertManagerStages(env, workshop, users, w);
      ObjectKeys(env, workshop);
      var (e1, w1) := Create(env.failing, w, SubscriptionObject(env, workshop));
      CreateKeeps(env.failing, w, SubscriptionObject(env, workshop));
      var w2 := Logged(w1, ApprovalCheck(workshop));
      var (e2, w3) := Create(env.failing, w2, NamespaceObject(env, workshop));
      CreateKeeps(env.failing, w2, NamespaceObject(env, workshop));
      var (e3, w4) := Create(env.failing, w3, ResourceObject(env, workshop));
      CreateKeeps(env.failing, w3, ResourceObject(env, workshop));
    }
  }

  /** The step's own log holds round trips and the approval check, never a component step. */
  lemma {:induction false} InvokesNoStep(env: Environment, workshop: Workshop, users: int, w: World)
    ensures Invoked(ReconcileCertManager(env, workshop, users, w).1.log) == Invoked(w.log)
  {
    if workshop.spec.infrastructure.certManager.enabled {
      AddCertManagerStages(env, workshop, users, w);
      var (_, w1) := Create(env.failing, w, SubscriptionObject(env, workshop));
      CreateNoInvocation(env.failing, w, SubscriptionObject(env, workshop));
      var w2 := Logged(w1, ApprovalCheck(workshop));
      LoggedNoInvocation(w1, ApprovalCheck(workshop));
      var (_, w3) := Create(env.failing, w2, NamespaceObject(env, workshop));
      CreateNoInvocation(env.failing, w2, NamespaceObject(env, workshop));
      CreateNoInvocation(env.failing, w3, ResourceObject(env, workshop));
    }
  }
}
