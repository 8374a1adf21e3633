/**
 * Generic resource factories of common/kubernetes: namespaces, service
 * accounts, config maps and role bindings. Each is a pure constructor; those
 * whose object lives in a namespace try to make the Workshop its controller.
 */
module Kubernetes {
  import opened Meta

  const RbacAPIGroup: string := "rbac.authorization.k8s.io"
  const ServiceAccountKind: string := "ServiceAccount"

  datatype Namespace = Namespace(meta: ObjectMeta)
  datatype ServiceAccount = ServiceAccount(meta: ObjectMeta)
  datatype ConfigMap = ConfigMap(meta: ObjectMeta, data: map<string, string>)
  datatype Subject = Subject(kind: string, apiGroup: string, name: string, namespace: string)
  datatype RoleRef = RoleRef(apiGroup: string, kind: string, name: string)
  datatype RoleBinding = RoleBinding(meta: ObjectMeta, subjects: seq<Subject>, roleRef: RoleRef)

  /**
   * NewNamespace: a namespace carrying only its name. A namespace is
   * cluster-scoped, so it never gets the namespaced Workshop as owner, and
   * neither the workshop nor the scheme influences the result.
   */
  function NewNamespace(workshop: Workshop, scheme: Scheme, name: string): (ns: Namespace)
    ensures ns.meta.name == name
    ensures ns.meta.namespace == "" && ns.meta.labels == map[]
    ensures ns.meta.ownerReferences == []
  {
    Namespace(NamedMeta(name))
  }

  /** GetNamespace: the namespace object for a name, built without a workshop. */
  function GetNamespace(name: string): (ns: Namespace)
    ensures forall workshop: Workshop, scheme: Scheme :: ns == NewNamespace(workshop, scheme, name)
  {
    Namespace(NamedMeta(name))
  }

  /** The namespace NewNamespace builds depends on its name alone. */
  lemma NewNamespaceIgnoresOwner(w1: Workshop, s1: Scheme, w2: Workshop, s2: Scheme, name: string)
    ensures NewNamespace(w1, s1, name) == NewNamespace(w2, s2, name)
  {
  }

  /**
   * NewServiceAccount: name, namespace and labels as given, nothing else but
   * the controller reference, which is present exactly when
   * SetControllerReference accepts the workshop as owner.
   */
  function NewServiceAccount(workshop: Workshop, scheme: Scheme,
                             name: string, namespace: string, labels: map<string, string>): (sa: ServiceAccount)
    ensures sa.meta.name == name && sa.meta.namespace == namespace && sa.meta.labels == labels
    ensures OwnerAccepted(workshop, scheme, namespace) ==> sa.meta.ownerReferences == [ControllerRefTo(workshop)]
    ensures !OwnerAccepted(workshop, scheme, namespace) ==> sa.meta.ownerReferences == []
  {
    ServiceAccount(WithControllerReference(ObjectMeta(name, namespace, labels, []), workshop, scheme))
  }

  /** NewConfigMap: like NewServiceAccount, plus the data map passed through unchanged. */
  function NewConfigMap(workshop: Workshop, scheme: Scheme,
                        name: string, namespace: string, labels: map<string, string>,
                        data: map<string, string>): (cm: ConfigMap)
    ensures cm.meta.name == name && cm.meta.namespace == namespace && cm.meta.labels == labels
    ensures cm.data == data
    ensures OwnerAccepted(workshop, scheme, namespace) ==> cm.meta.ownerReferences == [ControllerRefTo(workshop)]
    ensures !OwnerAccepted(workshop, scheme, namespace) ==> cm.meta.ownerReferences == []
  {
    ConfigMap(WithControllerReference(ObjectMeta(name, namespace, labels, []), workshop, scheme), data)
  }

  /**
   * NewRoleBindingSA: binds one service account, living in the binding's own
   * namespace, to the given role; the role reference names the RBAC API group.
   */
  function NewRoleBindingSA(workshop: Workshop, scheme: Scheme,
                            name: string, namespace: string, labels: map<string, string>,
                            serviceAccountName: string, roleName: string, roleKind: string): (rb: RoleBinding)
    ensures rb.meta.name == name && rb.meta.namespace == namespace && rb.meta.labels == labels
    ensures |rb.subjects| == 1
    ensures rb.subjects[0].kind == ServiceAccountKind && rb.subjects[0].name == serviceAccountName
    ensures rb.subjects[0].namespace == rb.meta.namespace
    ensures rb.roleRef == RoleRef(RbacAPIGroup, roleKind, roleName)
    ensures OwnerAccepted(workshop, scheme, namespace) ==> rb.meta.ownerReferences == [ControllerRefTo(workshop)]
    ensures !OwnerAccepted(workshop, scheme, namespace) ==> rb.meta.ownerReferences == []
  {
    var meta := ObjectMeta(name, namespace, labels, []);
    RoleBinding(WithControllerReference(meta, workshop, scheme),
                [Subject(ServiceAccountKind, "", serviceAccountName, namespace)],
                RoleRef(RbacAPIGroup, roleKind, roleName))
  }

  /**
   * NewRoleBindingUsers: the subjects are used as given, the role reference has
   * an empty API group, and no owner reference is attached.
   */
  function NewRoleBindingUsers(workshop: Workshop, scheme: Scheme,
                               name: string, namespace: string, labels: map<string, string>,
                               subjects: seq<Subject>, roleName: string, roleKind: string): (rb: RoleBinding)
    ensures rb.meta.name == name && rb.meta.namespace == namespace && rb.meta.labels == labels
    ensures rb.subjects == subjects
    ensures rb.roleRef == RoleRef("", roleKind, roleName)
    ensures rb.meta.ownerReferences == []
  {
    RoleBinding(ObjectMeta(name, namespace, labels, []), subjects, RoleRef("", roleKind, roleName))
  }

  /**
   * In the workshop's own namespace, a scheme that knows the Workshop kind is
   * all a service account, config map or service-account binding needs to be
   * owned by the workshop, and hence removed with it.
   */
  lemma SameNamespaceObjectsAreOwned(workshop: Workshop, scheme: Scheme, name: string,
                                     labels: map<string, string>, data: map<string, string>,
                                     sa: string, role: string, kind: string)
    requires scheme.registersWorkshop
    ensures NewServiceAccount(workshop, scheme, name, workshop.namespace, labels).meta.ownerReferences
            == [ControllerRefTo(workshop)]
    ensures NewConfigMap(workshop, scheme, name, workshop.namespace, labels, data).meta.ownerReferences
            == [ControllerRefTo(workshop)]
    ensures NewRoleBindingSA(workshop, scheme, name, workshop.namespace, labels, sa, role, kind).meta.ownerReferences
            == [ControllerRefTo(workshop)]
  {
  }

  /**
   * A namespaced workshop never owns an object placed in another namespace:
   * SetControllerReference refuses the cross-namespace reference and the
   * factory returns the object without one.
   */
  lemma CrossNamespaceObjectsAreNotOwned(workshop: Workshop, scheme: Scheme, name: string, namespace: string,
                                         labels: map<string, string>, data: map<string, string>)
    requires workshop.namespace != "" && namespace != workshop.namespace
    ensures NewServiceAccount(workshop, scheme, name, namespace, labels).meta.ownerReferences == []
    ensures NewConfigMap(workshop, scheme, name, namespace, labels, data).meta.ownerReferences == []
  {
  }
}
