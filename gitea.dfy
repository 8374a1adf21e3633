/** The Gitea custom resource factory of common/gitea. */
module Gitea {
  import opened Meta

  datatype GiteaSpec = GiteaSpec(giteaVolumeSize: string, giteaSsl: bool, postgresqlVolumeSize: string)
  datatype Gitea = Gitea(meta: ObjectMeta, spec: GiteaSpec)

  const VolumeSize: string := "4Gi"

  /**
   * NewCustomResource: a Gitea server with SSL and 4Gi volumes for Gitea and
   * its PostgreSQL database, controlled by the workshop whenever
   * SetControllerReference accepts it.
   */
  function NewCustomResource(workshop: Workshop, scheme: Scheme,
                             name: string, namespace: string, labels: map<string, string>): (cr: Gitea)
    ensures cr.meta.name == name && cr.meta.namespace == namespace && cr.meta.labels == labels
    ensures cr.spec.giteaVolumeSize == "4Gi" && cr.spec.postgresqlVolumeSize == "4Gi"
    ensures cr.spec.giteaSsl
    ensures OwnerAccepted(workshop, scheme, namespace) ==> cr.meta.ownerReferences == [ControllerRefTo(workshop)]
    ensures !OwnerAccepted(workshop, scheme, namespace) ==> cr.meta.ownerReferences == []
  {
    Gitea(WithControllerReference(ObjectMeta(name, namespace, labels, []), workshop, scheme),
          GiteaSpec(VolumeSize, true, VolumeSize))
  }
}
