# workshop-operator: a Dafny model of the Workshop reconciliation

The workshop-operator is a Kubernetes operator that runs a workshop platform on OpenShift.
Each Workshop custom resource is reconciled into about a dozen infrastructure components.
This project models the core of that operator and proves properties of the model:

- **One reconciliation pass** (`Reconcile` and `handleDelete`). The pass:
  - fetches the Workshop;
  - derives the console URL and the apps hostname suffix from the `openshift-console/console` route;
  - clamps the user count at zero.

  It then takes one of two branches:
  - **Deletion branch.** It runs `finalizeWorkshop`, then the ten teardown steps. It then removes the `finalizer.workshop.stakater.com` finalizer and updates the Workshop.
  - **Forward branch.** It adds the finalizer, then runs the twelve component steps in their fixed order. It stops at the first step whose reply `util.IsRequeued` accepts.
- **The cert-manager step** (`reconcileCertManager` / `addCertManager`). It subscribes to the cert-manager operator and waits until the install plan is approved. It then creates the `cert-manager` namespace and the cert-manager custom resource. `AlreadyExists` counts as success throughout.
- **The resource factories** that build the objects the steps create:
  - namespaces, service accounts, config maps and role bindings;
  - OpenShift users, htpasswd secrets, identities and user-identity mappings;
  - the Gitea custom resource;
  - the username-distribution deployment, including its `LAB_MODULE_URLS` string builder.

How the model is organised:

- **The cluster.** It is a store from (kind, namespace, name) to objects, reached through Get, Create and Update round trips. The requests the API server rejects form a set that comes with the environment.
- **The event log.** A ghost log records, in order:
  - every round trip;
  - every component step invoked;
  - every install-plan approval check;
  - every finalization.

  Ordering and "which steps ran" properties are stated over this log.
- **Specification and implementation.** Each operation of the reconciliation pass has two forms. A pure function over `World(store, log)` specifies it. The class `Controller.WorkshopReconciler` runs it imperatively against its own `cluster` field, and each method's contract equates its effect with the specifying function.

Files:

| file | module | contents |
|---|---|---|
| `wrappers.dfy` | `Wrappers` | `Option`, `Result` |
| `meta.dfy` | `Meta` | Workshop, object metadata, owner references, finalizer list operations |
| `kubernetes.dfy` | `Kubernetes` | `common/kubernetes` factories |
| `user.dfy` | `User` | `common/user` factories |
| `gitea.dfy` | `Gitea` | `common/gitea` factory |
| `usernamedistribution.dfy` | `UsernameDistribution` | `NewDeployment` and `LAB_MODULE_URLS` |
| `cluster.dfy` | `Cluster` | store, round trips, reconcile results, event log, oracles |
| `certmanager_reconciler.dfy` | `CertManagerReconciler` | the cert-manager step |
| `workshop_controller.dfy` | `Controller` | the pass, the step chains, the `WorkshopReconciler` class |

Three behaviours of the pass that are easy to miss:

- **Teardown order.** Teardown is not the reverse of the forward order. It runs ServiceMesh, Bookbag, Pipelines, GitOps, Project, CodeReadyWorkspace, Portal, Vault, Gitea, Nexus. Serverless and CertManager have no teardown step.
- **Teardown failures.** A failing teardown does not keep the finalizer. `handleDelete`'s reply is discarded, and the finalizer is removed whatever it was.
- **Unmatched console host.** A console host that the pattern `^console-openshift-console.(.*?)$` does not match leaves the submatch nil. The code then indexes it, which panics. The model has no precondition excluding such hosts: `ReconcilePass` ends in `Panic` on them.

## Model

| member | source | states |
|---|---|---|
| Meta.WithControllerReference | common/kubernetes/serviceaccount.go:24-29 | the owner reference is attached exactly when SetControllerReference accepts the workshop (scheme knows the Workshop kind, owner namespace admits the object); otherwise the object comes back unchanged; name, namespace and labels are never touched |
| Meta.ControllerRefTo | common/kubernetes/serviceaccount.go:25 | the controller reference names the workshop by kind, name and UID and sets controller and blockOwnerDeletion |
| Meta.OwnerAccepted | common/kubernetes/serviceaccount.go:24-29 | SetControllerReference's verdict on a fresh object: the scheme can name the Workshop kind, and the workshop is cluster-scoped or in the object's namespace |
| Meta.AddFinalizer | controllers/workshop_controller.go:139-144 | after adding, the finalizer is listed; the list keeps every earlier entry as a prefix and gains at most one element, the finalizer itself |
| Meta.RemoveFinalizer | controllers/workshop_controller.go:128 | after removal the finalizer is absent and every other entry is kept; the list never grows |
| Meta.RemoveAbsentFinalizer | controllers/workshop_controller.go:128 | removing a finalizer that is not listed changes nothing |
| Meta.AddRemoveFinalizer | controllers/workshop_controller.go:128-141 | adding an absent finalizer and removing it again restores the original list |
| Cluster.IsRequeued | controllers/workshop_controller.go:148-150 | util.IsRequeued as this model takes it: the reply carries an error, sets Requeue, or has a positive RequeueAfter |
| Cluster.NotRequeuedIsSuccess | controllers/workshop_controller.go:148-150 | a reply passes the check exactly when it has no error, no Requeue and a RequeueAfter of zero or less; among replies with a non-negative RequeueAfter only `ctrl.Result{}, nil` passes, and that reply always does |
| Cluster.Get | controllers/workshop_controller.go:73 | a read succeeds exactly when it is not rejected and the key is stored, returns the object stored under that key, otherwise NotFound or the rejection; the store is unchanged and the read is logged |
| Cluster.Create | controllers/certmanager_reconciler.go:36 | a create stores the object exactly when it is not rejected and its key is free; AlreadyExists exactly when the key is taken; on any error the store is unchanged |
| Cluster.Update | controllers/workshop_controller.go:126-130 | an update replaces the stored object exactly when it is not rejected and the key exists; an update that leaves a deletion-stamped Workshop without finalizers deletes it from the store instead; on any error the store is unchanged |
| Kubernetes.NewNamespace | common/kubernetes/namespace.go:11-28 | a namespace carries its name only: no namespace, no labels and no owner reference |
| Kubernetes.GetNamespace | common/kubernetes/namespace.go:31-39 | for every workshop and scheme, GetNamespace(n) is the namespace NewNamespace builds for n |
| Kubernetes.NewNamespaceIgnoresOwner | common/kubernetes/namespace.go:11-28 | NewNamespace's result depends on the name alone, not on the workshop or scheme |
| Kubernetes.NewServiceAccount | common/kubernetes/serviceaccount.go:13-30 | name, namespace and labels are the arguments; the controller reference is present exactly when SetControllerReference accepts the workshop, and the object is returned either way |
| Kubernetes.NewConfigMap | common/kubernetes/configmap.go:13-31 | name, namespace and labels are the arguments, the data map is passed through unchanged, and the owner reference follows SetControllerReference's verdict |
| Kubernetes.NewRoleBindingSA | common/kubernetes/rolebinding.go:13-43 | one subject, a ServiceAccount of the given name in the binding's own namespace; the role reference has the RBAC API group with the given kind and name; owner reference as SetControllerReference decides |
| Kubernetes.NewRoleBindingUsers | common/kubernetes/rolebinding.go:46-64 | the subjects are used as given, the role reference's API group is empty, and no owner reference is attached |
| Kubernetes.SameNamespaceObjectsAreOwned | common/kubernetes/serviceaccount.go:24-29 | in the workshop's namespace, with a scheme that knows the Workshop kind, service accounts, config maps and service-account bindings are all owned by the workshop |
| Kubernetes.CrossNamespaceObjectsAreNotOwned | common/kubernetes/configmap.go:25-30 | a namespaced workshop never owns a service account or config map in another namespace; the object is still returned, without an owner |
| Gitea.NewCustomResource | common/gitea/customresource.go:11-32 | name, namespace and labels are the arguments; SSL on; Gitea and PostgreSQL volumes both 4Gi; owner reference as SetControllerReference decides |
| User.NewUser | common/user/user.go:13-22 | the object name and the full name both equal the user name; no namespace, no owner |
| User.NewRoleBindingUsers | common/user/user.go:25-46 | the binding is named after the user in the given namespace, its single subject is that user (kind User, RBAC API group), role name and kind come from the arguments with an empty API group, no owner |
| User.NewHTPasswdSecret | common/user/user.go:49-63 | an Opaque secret `htpass-secret-<u>` in openshift-config holding exactly one key, htpasswd, with an empty value; no owner |
| User.NewIdentity | common/user/user.go:66-80 | provider `htpass-secret-<u>`, identity name `<provider>:<u>`, provider user name u, user reference by name u and by the UID of the user found in the cluster; no owner |
| User.NewUserIdentity | common/user/user.go:83-97 | the mapping's own name and the identity it references are both `htpass-secret-<u>:<u>`, and the user it references is u; no owner |
| User.UserObjectsLineUp | common/user/user.go:66-97 | the objects built for one user agree: the identity's provider is the htpasswd secret's name, the mapping names exactly the identity NewIdentity builds and the user NewUser builds |
| User.IdentityNamesDistinct | common/user/user.go:68-72 | distinct users get distinct identity names |
| User.SecretNamesDistinct | common/user/user.go:51-55 | distinct users get distinct htpasswd secrets |
| UsernameDistribution.NatToDecimal | common/usernamedistribution/deployment.go:80 | the decimal form is a non-empty digit string with no leading zero except for 0 itself |
| UsernameDistribution.Itoa | common/usernamedistribution/deployment.go:80 | strconv.Itoa: a minus sign before the digits exactly for negative numbers, and no leading zero except for 0 itself |
| UsernameDistribution.NatToDecimalRoundTrip | common/usernamedistribution/deployment.go:80 | reading the decimal form of n back gives n |
| UsernameDistribution.ItoaRoundTrip | common/usernamedistribution/deployment.go:80 | LAB_USER_COUNT, strconv.Itoa of the user count, reads back as that count, negative counts included |
| UsernameDistribution.GuideURLParameters | common/usernamedistribution/deployment.go:24-28 | the query string for every guide: APPS_HOSTNAME_SUFFIX, the literal USER_ID placeholder, OPENSHIFT_PASSWORD, the escaped WORKSHOP_GIT_REPO and WORKSHOP_GIT_REF, in that order |
| UsernameDistribution.CommaJoin | common/usernamedistribution/deployment.go:31-39 | the entries joined with commas, built from the left as the isFirst loop builds them; its shape is stated by CommaJoinFirstRest and CommaJoinBounds |
| UsernameDistribution.ModuleURLs | common/usernamedistribution/deployment.go:23-40 | the value of LAB_MODULE_URLS: the comma-joined guide entries when Scholars is on and guides exist, the OpenShift documentation default otherwise; its shape is stated by ModuleURLsShape and the loop is proved equal to it in LabModuleURLs |
| UsernameDistribution.CommaJoinFirstRest | common/usernamedistribution/deployment.go:31-39 | the list the loop builds from the left is the first entry followed by `,` and the join of the rest: commas only between entries |
| UsernameDistribution.CommaJoinBounds | common/usernamedistribution/deployment.go:31-39 | the joined list starts with the first entry and ends with the last, so there is no leading or trailing comma |
| UsernameDistribution.EnumerationSize | common/usernamedistribution/deployment.go:32 | any order that visits every key of the guide map once has one element per guide |
| UsernameDistribution.ModuleURLsShape | common/usernamedistribution/deployment.go:23-40 | with Scholars off, or on with no guides, LAB_MODULE_URLS is the OpenShift documentation default; with Scholars on and guides configured it is one entry per guide, in any visiting order, comma-joined, starting with the first entry and ending with the last |
| UsernameDistribution.LabModuleURLs | common/usernamedistribution/deployment.go:23-40 | the isFirst loop produces exactly the comma-joined entries (or the default when it never runs) |
| UsernameDistribution.LabEnv | common/usernamedistribution/deployment.go:61-105 | the eleven container environment variables in the source's order, with the values NewDeployment gives them; LabEnvLookup states what a reader of the environment finds |
| UsernameDistribution.LabEnvLookup | common/usernamedistribution/deployment.go:61-105 | in the container environment, LAB_REDIS_HOST and LAB_REDIS_PASS are both the Redis service name, LAB_USER_ACCESS_TOKEN and LAB_USER_PASS are both the password, LAB_USER_COUNT is Itoa(users), LAB_USER_PREFIX is user, LAB_USER_PAD_ZERO is false, LAB_MODULE_URLS is the list built |
| UsernameDistribution.NewDeployment | common/usernamedistribution/deployment.go:18-128 | the deployment sits in the workshop's namespace with the given name; metadata, selector and pod-template labels are all the given labels; one container of the same name, image and port 8080/TCP, environment variables in the source's order with the values above; guide URL parameters as APPS_HOSTNAME_SUFFIX, USER_ID, OPENSHIFT_PASSWORD, escaped WORKSHOP_GIT_REPO and WORKSHOP_GIT_REF; owned by the workshop exactly when the scheme knows the Workshop kind |
| CertManagerReconciler.NewCertifiedSubscription | controllers/certmanager_reconciler.go:34-35 | the subscription is named cert-manager-operator in openshift-operators as requested |
| CertManagerReconciler.NewCertManagerResource | controllers/certmanager_reconciler.go:55-59 | the custom resource has the requested name, namespace and labels |
| CertManagerReconciler.AddCertManager | controllers/certmanager_reconciler.go:29-68 | addCertManager over the world: create the subscription, check the install plan, create the namespace, create the custom resource, tolerating AlreadyExists and stopping at the first other error or an unapproved plan; its behaviour is stated by the lemmas below |
| CertManagerReconciler.ReconcileCertManager | controllers/certmanager_reconciler.go:16-27 | reconcileCertManager: addCertManager when cert-manager is enabled, passing on a reply that IsRequeued and otherwise returning the empty result |
| CertManagerReconciler.ObjectKeys | controllers/certmanager_reconciler.go:34-59 | the subscription, namespace and custom resource are stored under openshift-operators/cert-manager-operator, cert-manager (cluster-scoped) and cert-manager/cert-manager |
| CertManagerReconciler.DisabledDoesNothing | controllers/certmanager_reconciler.go:16-27 | with cert-manager disabled the step succeeds without a single round trip |
| CertManagerReconciler.SubscriptionRejectionStops | controllers/certmanager_reconciler.go:34-37 | a rejected subscription create returns that error with an empty result; nothing else is attempted and the store is unchanged |
| CertManagerReconciler.PendingApprovalRequeues | controllers/certmanager_reconciler.go:43-46 | an unapproved install plan returns Requeue with no error after at most creating the subscription; neither namespace nor custom resource is attempted |
| CertManagerReconciler.NamespaceRejectionSkipsResource | controllers/certmanager_reconciler.go:48-53 | a rejected namespace create returns that error; the custom resource is not attempted |
| CertManagerReconciler.ApprovedStepConverges | controllers/certmanager_reconciler.go:29-68 | with nothing rejected and the plan approved, the step succeeds after subscription, approval check, namespace and custom resource, in that order |
| CertManagerReconciler.ApprovedStepStore | controllers/certmanager_reconciler.go:48-64 | afterwards the three objects exist; a custom resource that was absent is stored as cert-manager in the cert-manager namespace labelled part-of certmanager, and an absent namespace as NewNamespace builds it |
| CertManagerReconciler.CreateAccepted | controllers/certmanager_reconciler.go:36-40 | a create that is not rejected is tolerated, adds its key, keeps every object present and stores the new object when its key was free |
| CertManagerReconciler.CreateKeeps | controllers/certmanager_reconciler.go:36-64 | any create keeps every object present, adds at most its own key and fails only with a rejection or AlreadyExists |
| CertManagerReconciler.RerunIsIdempotent | controllers/certmanager_reconciler.go:36-64 | once the three objects exist and the plan is approved, rerunning the step leaves the store as it is and succeeds again |
| CertManagerReconciler.OnlyCreates | controllers/certmanager_reconciler.go:16-68 | the step only ever adds the three cert-manager objects, never changes an existing one, and replies success, requeue-now without error, or a rejection with an empty result |
| CertManagerReconciler.InvokesNoStep | controllers/certmanager_reconciler.go:16-68 | the cert-manager step invokes no other component step |
| Controller.FindConsoleSubmatch | controllers/workshop_controller.go:103-105 | a match is the whole host and the group; the host is then the literal prefix, one non-newline character and the group, which has no newline |
| Controller.ConsoleHostMatches | controllers/workshop_controller.go:103-105 | every host made of the prefix, one character and a newline-free suffix matches, with that suffix as the apps hostname suffix |
| Controller.ClampUsers | controllers/workshop_controller.go:108-111 | the user count is the spec's number, or 0 when that is negative: max(n, 0) |
| Controller.Step | controllers/workshop_controller.go:148-229 | one reconcileX or deleteX call: the invocation is recorded, the forward cert-manager step runs as modelled and every other step as the oracle returns it |
| Controller.RunChain | controllers/workshop_controller.go:145-285 | a guarded chain of steps over any step function: run the next step, return its reply at once if IsRequeued accepts it, otherwise go on; the empty result with nil error when all ran; its behaviour is stated by ChainRun |
| Controller.Chain | controllers/workshop_controller.go:145-285 | the guarded chain with the reconciler's own steps; ReconcileComponents and HandleDelete are proved equal to it over the forward and teardown orders |
| Controller.StepInvokesOnce | controllers/workshop_controller.go:148-229 | each component step records exactly its own invocation |
| Controller.ChainRun | controllers/workshop_controller.go:148-229 | a chain runs its steps in order up to some k and no further: either all passed and it returns the empty result with nil error, or step k is the first whose reply IsRequeued and that reply, unchanged, is the chain's |
| Controller.ChainInvokes | controllers/workshop_controller.go:242-284 | a chain invokes a prefix of its order with the same workshop and arguments; it succeeds exactly when the whole order ran and the last reply passed |
| Controller.ReconcilePass | controllers/workshop_controller.go:67-137 | Reconcile over the world: read the Workshop and the console route, derive the arguments, panic on an unmatched host, then enter the deletion or forward branch; its behaviour is stated by the lemmas below and Reconcile is proved equal to it |
| Controller.DeletionBranch | controllers/workshop_controller.go:116-137 | the deletion branch: with the finalizer listed, finalizeWorkshop, then on success handleDelete with its reply discarded, then the finalizer removed and the Workshop updated |
| Controller.ForwardBranch | controllers/workshop_controller.go:139-229 | the forward branch: add the finalizer and update the Workshop when it is missing, then the forward chain with the updated Workshop |
| Controller.MissingWorkshopIsIgnored | controllers/workshop_controller.go:72-85 | a Workshop that is not found ends the pass with an empty result and nil error after that one read; a rejected read returns its error; the store is untouched either way |
| Controller.RouteErrorAborts | controllers/workshop_controller.go:95-99 | a console route that cannot be read returns that error right after the two reads, before any finalizer handling or step, deletion timestamp or not |
| Controller.UnmatchedHostPanics | controllers/workshop_controller.go:103-105 | a console host without the pattern's prefix panics after the two reads, with nothing changed |
| Controller.PassEntersBranch | controllers/workshop_controller.go:100-117 | past its reads, the pass enters the deletion branch exactly when the deletion timestamp is set, with the stored Workshop and the arguments (users clamped, the host's suffix, https console URL) |
| Controller.DeletionBranchInvokes | controllers/workshop_controller.go:116-137 | the deletion branch invokes only teardown steps, a prefix of the teardown order, and its result is always empty |
| Controller.TeardownInvokes | controllers/workshop_controller.go:238-285 | teardown followed by the finalizer-release update invokes only a prefix of the teardown order |
| Controller.DeletingRunsOnlyTeardown | controllers/workshop_controller.go:116-137 | with a deletion timestamp no forward step runs, the teardown steps that do run get the stored Workshop and the derived arguments, and the result is empty; without the finalizer nothing happens after the two reads and nil is returned |
| Controller.FinalizeFailureKeepsFinalizer | controllers/workshop_controller.go:118-124 | if finalizeWorkshop fails its error is returned, no teardown step runs and the stored Workshop, finalizer included, is unchanged |
| Controller.FinalizerRemovedWhateverTeardownReplies | controllers/workshop_controller.go:125-133 | once finalizeWorkshop succeeds, the Workshop is updated without the finalizer whatever teardown replied; the pass returns the update's outcome; when that was the last finalizer the Workshop is gone from the store, otherwise it is stored without the finalizer |
| Controller.FinalizerAddedBeforeFirstStep | controllers/workshop_controller.go:139-150 | a live Workshop without the finalizer has it stored right after the reads and before the first step, and the chain runs with the updated Workshop; if the update fails its error is returned and no step runs; with the finalizer present the chain starts at once |
| Controller.ForwardBranchInvokes | controllers/workshop_controller.go:139-229 | the forward branch invokes only a prefix of the forward order with the Workshop carrying the finalizer, and succeeds only if all twelve ran |
| Controller.ForwardRunsOnlyForward | controllers/workshop_controller.go:139-229 | a live Workshop runs only forward steps, a prefix of the forward order, with the Workshop carrying the finalizer and the derived arguments; the pass succeeds only if all twelve ran |
| Controller.WorkshopReconciler.Get | controllers/workshop_controller.go:73 | the client's Get has the effect Cluster.Get specifies on the reconciler's cluster and log |
| Controller.WorkshopReconciler.Create | controllers/certmanager_reconciler.go:36 | the client's Create has the effect Cluster.Create specifies |
| Controller.WorkshopReconciler.Update | controllers/workshop_controller.go:130 | the client's Update has the effect Cluster.Update specifies |
| Controller.WorkshopReconciler.AddCertManager | controllers/certmanager_reconciler.go:29-68 | the imperative addCertManager leaves exactly the reply, store and log CertManagerReconciler.AddCertManager specifies |
| Controller.WorkshopReconciler.ReconcileCertManager | controllers/certmanager_reconciler.go:16-27 | the imperative reconcileCertManager leaves exactly what CertManagerReconciler.ReconcileCertManager specifies |
| Controller.WorkshopReconciler.RunStep | controllers/workshop_controller.go:148-150 | one step of a chain: a reply that IsRequeued ends the chain with it, any other reply leaves the rest of the chain to run |
| Controller.WorkshopReconciler.ReconcileComponents | controllers/workshop_controller.go:145-229 | the twelve guarded calls have exactly the effect of the forward chain over the forward order |
| Controller.WorkshopReconciler.HandleDelete | controllers/workshop_controller.go:238-285 | the ten guarded calls have exactly the effect of the teardown chain over the teardown order |
| Controller.WorkshopReconciler.FinalizeWorkshop | controllers/workshop_controller.go:122 | returns what finalizeWorkshop returns and records the finalization |
| Controller.WorkshopReconciler.AddFinalizerTo | controllers/workshop_controller.go:140-144 | the in-memory Workshop gains the finalizer and is written back through Update |
| Controller.WorkshopReconciler.Reconcile | controllers/workshop_controller.go:67-230 | a pass leaves exactly the termination, store and log ReconcilePass specifies, so every property of ReconcilePass holds of it |

## Left out

- Component steps other than cert-manager are not modelled. `reconcilePortal` … `reconcileVault` and every `deleteX` have bodies that are not part of this model. They are one oracle: a function from the invocation and the store to a reply and a new store. Every step of a pass receives all the derived arguments, although most use only some of them.
- `finalizeWorkshop` is an oracle. Its body is not part of this model, and it returns an error or nothing. The model records that it ran but gives it no effect on the store.
- `ApproveInstallPlan` is an oracle that returns approved or not. Its effect on the cluster's install plans is not modelled.
- `util.IsRequeued`, `util.Contains` and the reconciler's `addFinalizer` are not part of this model. They are taken as, respectively:
  - "an error, or a result asking for a requeue";
  - list membership;
  - `controllerutil.AddFinalizer` followed by `r.Update`.
- The API server is reduced to a keyed store:
  - Rejections (permissions, resourceVersion conflicts, transport errors) are a fixed set of requests.
  - `r.Delete`, `context` and the object's server-side fields (resourceVersion, status) are not modelled.
  - The steps receive the Workshop as a value, so a step cannot change the in-memory Workshop.
- Cluster.Update: deletes a Workshop once its deletion timestamp is set and its last finalizer is removed, but does not garbage-collect the objects it owns. Kubernetes' garbage collector removes those later, outside the pass, so the store after a pass still holds them.
- Logging (`log.*`, `reqLogger`), the kubebuilder RBAC markers and `SetupWithManager` are left out. They have no effect on the reconciled state.
- The commented-out `deleteCertManager` and the commented-out owner-reference call in `NewNamespace` are left out because they are dead code.
- Concurrency is left out. The controller-runtime work queue and concurrent passes are not modelled; one pass runs at a time.
- `url.QueryEscape` is a function parameter.
- The Go map iteration order over the guide map is a parameter: any sequence that lists every guide once. All properties hold for every such order.
- The regular expression is modelled directly as the literal prefix, one character that is not a newline, and the rest. Matching works on characters, not UTF-8 bytes.
- CertManagerReconciler.NewCertifiedSubscription: the subscription keeps only its name, namespace, package, channel and starting CSV. The subscription is built by code outside this model.
- CertManagerReconciler.NewCertManagerResource: the custom resource keeps only its metadata. `certmanager.NewCustomResource` is not part of this model.
- Controller.UnmatchedHostPanics: states the panic only for hosts without the literal prefix. A host that has the prefix but contains a newline after it also panics, and that case is not stated separately.
- Meta.WithControllerReference: SetControllerReference is reduced to its verdict:
  - the scheme can name the Workshop kind, so the group-version-kind lookup succeeds;
  - the owner's namespace admits the object.

  Some failures are not modelled:
  - the lookup's other failures, for an unversioned type or a type registered under several kinds;
  - the refusal to replace an existing controller reference, which cannot arise because every factory calls it on a fresh object;
  - the failure to resolve the object's own kind.
- Deletion timestamps are present or absent. The time itself plays no part.
