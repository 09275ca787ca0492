/** `handler` of src/kube-config/kube-config-handler.ts: the CloudFormation
    custom-resource handler that dispatches on the request type. The answer
    of the EKS `DescribeCluster` call for the event's cluster name is a
    parameter, `described`; `None` stands for a response without a cluster. */
module Handler {
  import opened Wrappers
  import opened KubeConfig

  datatype RequestType = Create | Update | Delete

  /** The custom resource's properties that the handler reads. */
  datatype ResourceProperties = ResourceProperties(clusterName: Option<string>)

  /** A lifecycle event; a Create event carries no physical resource id. */
  datatype Event = Event(
    requestType: RequestType,
    resourceProperties: ResourceProperties,
    physicalResourceId: Option<string>)

  datatype Data = Data(kubeConfigContent: string)

  /** The object the handler returns; `data` is absent on Delete. */
  datatype Response = Response(physicalResourceId: Option<string>, data: Option<Data>)

  const ClusterNameRequired: string := "ClusterName property is required"
  const PhysicalIdPrefix: string := "kubeconfig-"

  function NotFound(clusterName: string): string
  {
    "Cluster " + clusterName + " not found"
  }

  /** The physical resource id of the kubeconfig resource of a cluster. */
  function PhysicalId(clusterName: string): (id: string)
    ensures |id| == |PhysicalIdPrefix| + |clusterName|
    ensures id[..|PhysicalIdPrefix|] == PhysicalIdPrefix
    ensures id[|PhysicalIdPrefix|..] == clusterName
  {
    PhysicalIdPrefix + clusterName
  }

  /** `handler`: a thrown error is a `Failure` carrying its message. It
      succeeds exactly when the event names a cluster and either deletes the
      resource or finds a complete cluster description. */
  function Handle(event: Event, described: Option<Cluster>): (r: Result<Response, string>)
    ensures r.Success? <==>
      Truthy(event.resourceProperties.clusterName)
      && (event.requestType.Delete? || (described.Some? && IsComplete(described.value)))
    ensures r.Success? ==> (r.value.data.Some? <==> !event.requestType.Delete?)
  {
    var clusterName := event.resourceProperties.clusterName;
    if !Truthy(clusterName) then Failure(ClusterNameRequired)
    else if event.requestType == Create || event.requestType == Update then
      match described
      case None => Failure(NotFound(clusterName.value))
      case Some(cluster) =>
        match GenerateKubeConfig(cluster)
        case Failure(e) => Failure(e)
        case Success(kubeconfig) =>
          Success(Response(Some(PhysicalId(clusterName.value)), Some(Data(kubeconfig))))
    else
      Success(Response(event.physicalResourceId, None))
  }

  /** A missing or empty ClusterName is rejected whatever the request type,
      Delete included, and before the cluster is looked at. */
  lemma MissingClusterName(event: Event, described: Option<Cluster>)
    requires !Truthy(event.resourceProperties.clusterName)
    ensures Handle(event, described) == Failure(ClusterNameRequired)
  {
  }

  /** Create or Update of a cluster that the description does not contain
      fails with "Cluster <name> not found". */
  lemma CreateOrUpdateNotFound(event: Event)
    requires Truthy(event.resourceProperties.clusterName)
    requires !event.requestType.Delete?
    ensures Handle(event, None) == Failure(NotFound(event.resourceProperties.clusterName.value))
  {
  }

  /** Create or Update of a described cluster returns the physical id
      `kubeconfig-<ClusterName>` and the generated document, or rethrows the
      generator's "Incomplete cluster information". */
  lemma CreateOrUpdateFound(event: Event, cluster: Cluster)
    requires Truthy(event.resourceProperties.clusterName)
    requires !event.requestType.Delete?
    ensures var r := Handle(event, Some(cluster));
      if IsComplete(cluster) then
        r.Success?
        && r.value.physicalResourceId == Some(PhysicalIdPrefix + event.resourceProperties.clusterName.value)
        && r.value.data == Some(Data(Render(SettingsOf(cluster))))
      else
        r == Failure(IncompleteClusterInformation)
  {
  }

  /** Delete echoes the event's physical id, renders nothing and does not
      depend on what DescribeCluster would answer. */
  lemma DeleteEchoes(event: Event, d1: Option<Cluster>, d2: Option<Cluster>)
    requires Truthy(event.resourceProperties.clusterName)
    requires event.requestType.Delete?
    ensures Handle(event, d1) == Success(Response(event.physicalResourceId, None))
    ensures Handle(event, d1) == Handle(event, d2)
  {
  }

  /** Distinct cluster names give distinct physical ids (the name is read
      back from the id by `PhysicalId`'s contract). */
  lemma PhysicalIdInjective(n1: string, n2: string)
    ensures PhysicalId(n1) == PhysicalId(n2) <==> n1 == n2
  {
    if PhysicalId(n1) == PhysicalId(n2) {
      assert n1 == PhysicalId(n1)[|PhysicalIdPrefix|..];
    }
  }

  /** On success of a Create or Update the handler's document is the one
      generated from the described cluster, so its `--cluster-name`
      argument is the described cluster's name, while the physical id comes
      from the event's ClusterName. */
  lemma CreateOrUpdateDocument(event: Event, cluster: Cluster)
    requires !event.requestType.Delete?
    requires Handle(event, Some(cluster)).Success?
    ensures IsComplete(cluster)
    ensures Handle(event, Some(cluster)).value.data == Some(Data(GenerateKubeConfig(cluster).value))
    ensures Handle(event, Some(cluster)).value.physicalResourceId
            == Some(PhysicalId(event.resourceProperties.clusterName.value))
  {
  }
}
