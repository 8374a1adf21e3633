/**
 * Identity factories of common/user: OpenShift users, their role bindings,
 * the htpasswd secret, identities and user-identity mappings. All of them are
 * cluster-scoped or cross-namespace objects and none carries an owner
 * reference. The naming convention ties them together: the htpasswd identity
 * provider of user `u` is "htpass-secret-u" and u's identity is
 * "htpass-secret-u:u".
 */
module User {
  import opened Meta
  import Kubernetes

  const HTPasswdPrefix: string := "htpass-secret-"
  const ConfigNamespace: string := "openshift-config"

  datatype OpenShiftUser = OpenShiftUser(meta: ObjectMeta, fullName: string, uid: string)
  datatype Secret = Secret(meta: ObjectMeta, secretType: string, data: map<string, seq<bv8>>)
  datatype ObjectReference = ObjectReference(name: string, uid: string)
  datatype Identity = Identity(meta: ObjectMeta, providerName: string, providerUserName: string, user: ObjectReference)
  datatype UserIdentityMapping = UserIdentityMapping(meta: ObjectMeta, identity: ObjectReference, user: ObjectReference)

  /** Name of the htpasswd identity provider (and of its secret) for `username`. */
  function ProviderName(username: string): string
  {
    HTPasswdPrefix + username
  }

  /** Name of the identity of `username` under its htpasswd provider. */
  function IdentityName(username: string): string
  {
    ProviderName(username) + ":" + username
  }

  /** NewUser: a user whose object name and full name are both the user name. */
  function NewUser(workshop: Workshop, scheme: Scheme, username: string): (u: OpenShiftUser)
    ensures u.meta.name == username && u.fullName == username
    ensures u.meta.namespace == "" && u.meta.ownerReferences == []
  {
    OpenShiftUser(NamedMeta(username), username, "")
  }

  /**
   * NewRoleBindingUsers: a binding named after the user, in `namespace`, whose
   * single subject is that user (kind User, RBAC API group); the role is taken
   * from the arguments and no owner reference is attached.
   */
  function NewRoleBindingUsers(workshop: Workshop, scheme: Scheme, username: string, namespace: string,
                               roleName: string, roleKind: string): (rb: Kubernetes.RoleBinding)
    ensures rb.meta.name == username && rb.meta.namespace == namespace && rb.meta.labels == map[]
    ensures rb.subjects == [Kubernetes.Subject("User", Kubernetes.RbacAPIGroup, username, "")]
    ensures rb.roleRef.name == roleName && rb.roleRef.kind == roleKind && rb.roleRef.apiGroup == ""
    ensures rb.meta.ownerReferences == []
  {
    Kubernetes.RoleBinding(ObjectMeta(username, namespace, map[], []),
                           [Kubernetes.Subject("User", Kubernetes.RbacAPIGroup, username, "")],
                           Kubernetes.RoleRef("", roleKind, roleName))
  }

  /**
   * NewHTPasswdSecret: an Opaque secret "htpass-secret-<username>" in
   * openshift-config holding one key, htpasswd, with an empty value.
   */
  function NewHTPasswdSecret(workshop: Workshop, scheme: Scheme, username: string): (s: Secret)
    ensures s.meta.name == ProviderName(username) && s.meta.namespace == ConfigNamespace
    ensures s.secretType == "Opaque"
    ensures s.data.Keys == {"htpasswd"} && s.data["htpasswd"] == []
    ensures s.meta.ownerReferences == []
  {
    Secret(ObjectMeta(ProviderName(username), ConfigNamespace, map[], []), "Opaque", map["htpasswd" := []])
  }

  /**
   * NewIdentity: the identity "<provider>:<username>" under provider
   * "htpass-secret-<username>", pointing at the user by name and by the UID
   * of the user object found in the cluster.
   */
  function NewIdentity(workshop: Workshop, scheme: Scheme, username: string, userFound: OpenShiftUser): (id: Identity)
    ensures id.providerName == HTPasswdPrefix + username
    ensures id.meta.name == id.providerName + ":" + username
    ensures id.providerUserName == username
    ensures id.user == ObjectReference(username, userFound.uid)
    ensures id.meta.ownerReferences == []
  {
    Identity(NamedMeta(IdentityName(username)), ProviderName(username), username,
             ObjectReference(username, userFound.uid))
  }

  /** NewUserIdentity: maps the identity "htpass-secret-<username>:<username>" to the user. */
  function NewUserIdentity(workshop: Workshop, scheme: Scheme, username: string): (m: UserIdentityMapping)
    ensures m.meta.name == HTPasswdPrefix + username + ":" + username
    ensures m.identity.name == m.meta.name
    ensures m.user.name == username
    ensures m.meta.ownerReferences == []
  {
    UserIdentityMapping(NamedMeta(IdentityName(username)), ObjectReference(IdentityName(username), ""),
                        ObjectReference(username, ""))
  }

  /**
   * The objects built for one user line up: the identity's provider is the
   * htpasswd secret's name, and the mapping names exactly the identity that
   * NewIdentity builds and the user that NewUser builds.
   */
  lemma UserObjectsLineUp(workshop: Workshop, scheme: Scheme, username: string, userFound: OpenShiftUser)
    ensures NewIdentity(workshop, scheme, username, userFound).providerName
            == NewHTPasswdSecret(workshop, scheme, username).meta.name
    ensures NewUserIdentity(workshop, scheme, username).meta.name
            == NewIdentity(workshop, scheme, username, userFound).meta.name
    ensures NewUserIdentity(workshop, scheme, username).identity.name
            == NewIdentity(workshop, scheme, username, userFound).meta.name
    ensures NewUserIdentity(workshop, scheme, username).user.name
            == NewUser(workshop, scheme, username).meta.name
  {
  }

  /** Two users never share an identity name: the naming scheme is injective. */
  lemma {:induction false} IdentityNamesDistinct(u1: string, u2: string)
    requires u1 != u2
    ensures IdentityName(u1) != IdentityName(u2)
  {
    var n1, n2 := IdentityName(u1), IdentityName(u2);
    if |u1| == |u2| {
      // the user name is the last |u| characters of its identity name
      assert n1[|n1| - |u1|..] == u1;
      assert n2[|n2| - |u2|..] == u2;
    } else {
      assert |n1| == 2 * |u1| + |HTPasswdPrefix| + 1;
      assert |n2| == 2 * |u2| + |HTPasswdPrefix| + 1;
    }
  }

  /** Two users never share an htpasswd secret. */
  lemma {:induction false} SecretNamesDistinct(workshop: Workshop, scheme: Scheme, u1: string, u2: string)
    requires u1 != u2
    ensures NewHTPasswdSecret(workshop, scheme, u1).meta.name != NewHTPasswdSecret(workshop, scheme, u2).meta.name
  {
    var n1, n2 := ProviderName(u1), ProviderName(u2);
    assert n1[|HTPasswdPrefix|..] == u1;
    assert n2[|HTPasswdPrefix|..] == u2;
  }
}
