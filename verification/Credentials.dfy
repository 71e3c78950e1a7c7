/** Which Azure IDs a cluster of a kind served by the common patcher works with (pkg/infracluster/scope.go). */
module Credentials {
  import opened AzureModel
  import opened DesiredRecords

  datatype Ref = Ref(name: string, namespace: string)

  datatype Identity = Identity(clientId: string, tenantId: string)

  datatype Management = Management(subscriptionId: string, identityRef: Option<Ref>)

  /** The answer of a Kubernetes Get. */
  datatype Lookup<+T> = Found(value: T) | NotFound | LookupError

  datatype Ids = Ids(subscriptionId: string, clientId: string, tenantId: string)

  const SUBSCRIPTION := "giantswarm.io/azure-subscription-id"
  const IDENTITY_NAME := "azure.giantswarm.io/azure-cluster-identity"
  const IDENTITY_NAMESPACE := "azure.giantswarm.io/azure-cluster-identity-namespace"

  datatype Setup = Setup(
    kind: Kind,
    configured: Ids,
    clusterAnnotations: map<string, string>,
    infraAnnotations: map<string, string>,
    clusterIdentityRef: Option<Ref>,
    identities: Ref -> Lookup<Identity>,
    management: Lookup<Management>)

  function Get(m: map<string, string>, k: string): string { if k in m then m[k] else "" }

  /** A missing identity is an empty one; a nil reference and a failed lookup are errors. */
  function AzureClusterIdentity(identities: Ref -> Lookup<Identity>, r: Option<Ref>): Option<Identity> {
    if r.None? then None
    else match identities(r.value)
      case Found(i) => Some(i)
      case NotFound => Some(Identity("", ""))
      case LookupError => None
  }

  function ManagementCluster(management: Lookup<Management>): Option<Management> {
    match management
    case Found(m) => Some(m)
    case NotFound => Some(Management("", None))
    case LookupError => None
  }

  function AsoIdentityRef(s: Setup): Option<Ref> {
    if !s.kind.AzureASOManagedCluster? || Get(s.infraAnnotations, IDENTITY_NAME) == "" then None
    else Some(Ref(Get(s.infraAnnotations, IDENTITY_NAME), Get(s.infraAnnotations, IDENTITY_NAMESPACE)))
  }

  function ManagementIdentity(s: Setup): Option<Identity> {
    var m := ManagementCluster(s.management);
    if m.None? then None else AzureClusterIdentity(s.identities, m.value.identityRef)
  }

  /** The identity the service authenticates with. */
  function InfraClusterIdentity(s: Setup): Option<Identity>
    requires !s.kind.AzureCluster?
  {
    if AsoIdentityRef(s).Some? then AzureClusterIdentity(s.identities, AsoIdentityRef(s))
    else
      var own := AzureClusterIdentity(s.identities, s.clusterIdentityRef);
      if own.Some? then own else ManagementIdentity(s)
  }

  /** The subscription before any fallback: the annotation of an AzureASOManagedCluster, else the configuration. */
  function OwnSubscription(s: Setup): string {
    if s.kind.AzureASOManagedCluster? && Get(s.clusterAnnotations, SUBSCRIPTION) != ""
    then Get(s.clusterAnnotations, SUBSCRIPTION) else s.configured.subscriptionId
  }

  /** The code's assignments; None is its error. */
  method ResolveIds(s: Setup) returns (r: Option<Ids>)
    requires !s.kind.AzureCluster?
    ensures r == PatcherIds(s) && Unmixed(s, r)
  {
    NeverAMixture(s);
    var subscriptionId, clientId, tenantId := s.configured.subscriptionId, s.configured.clientId, s.configured.tenantId;
    if s.kind.AzureASOManagedCluster? {
      var annotated := Get(s.clusterAnnotations, SUBSCRIPTION);
      if annotated != "" { subscriptionId := annotated; }
      var identityRef := AsoIdentityRef(s);
      if identityRef.Some? {
        var identity := AzureClusterIdentity(s.identities, identityRef);
        if identity.None? { return None; }
        clientId := identity.value.clientId;
        tenantId := identity.value.tenantId;
      }
    }
    if subscriptionId == "" || clientId == "" || tenantId == "" {
      var managementCluster := ManagementCluster(s.management);
      if managementCluster.None? { return None; }
      var identity := AzureClusterIdentity(s.identities, managementCluster.value.identityRef);
      if identity.None? { return None; }
      subscriptionId := managementCluster.value.subscriptionId;
      clientId := identity.value.clientId;
      tenantId := identity.value.tenantId;
    }
    return Some(Ids(subscriptionId, clientId, tenantId));
  }

  /** The three IDs before any fallback. */
  function OwnIds(s: Setup): Option<Ids> {
    if AsoIdentityRef(s).None? then Some(Ids(OwnSubscription(s), s.configured.clientId, s.configured.tenantId))
    else
      var identity := AzureClusterIdentity(s.identities, AsoIdentityRef(s));
      if identity.None? then None else Some(Ids(OwnSubscription(s), identity.value.clientId, identity.value.tenantId))
  }

  predicate Complete(ids: Ids) { ids.subscriptionId != "" && ids.clientId != "" && ids.tenantId != "" }

  function ManagementIds(s: Setup): Option<Ids> {
    var m, i := ManagementCluster(s.management), ManagementIdentity(s);
    if m.None? || i.None? then None else Some(Ids(m.value.subscriptionId, i.value.clientId, i.value.tenantId))
  }

  /** All three own IDs if they are complete, all three of the management cluster otherwise, never a mixture. */
  function PatcherIds(s: Setup): (r: Option<Ids>) {
    if OwnIds(s).None? then None
    else if Complete(OwnIds(s).value) then OwnIds(s)
    else ManagementIds(s)
  }

  /** An AzureASOManagedCluster names its identity on the infrastructure object. */
  predicate Annotated(s: Setup) {
    && s.kind.AzureASOManagedCluster?
    && "azure.giantswarm.io/azure-cluster-identity" in s.infraAnnotations
    && s.infraAnnotations["azure.giantswarm.io/azure-cluster-identity"] != ""
  }

  /** What that name refers to. */
  predicate Refers(s: Setup, r: Ref) {
    && Annotated(s)
    && r.name == s.infraAnnotations["azure.giantswarm.io/azure-cluster-identity"]
    && r.namespace == if "azure.giantswarm.io/azure-cluster-identity-namespace" in s.infraAnnotations
                      then s.infraAnnotations["azure.giantswarm.io/azure-cluster-identity-namespace"] else ""
  }

  /** The cluster's own subscription: annotated on an AzureASOManagedCluster, or configured. */
  predicate OwnsSubscription(s: Setup, subscriptionId: string) {
    if s.kind.AzureASOManagedCluster? && "giantswarm.io/azure-subscription-id" in s.clusterAnnotations
       && s.clusterAnnotations["giantswarm.io/azure-subscription-id"] != ""
    then subscriptionId == s.clusterAnnotations["giantswarm.io/azure-subscription-id"]
    else subscriptionId == s.configured.subscriptionId
  }

  /** An identity that was looked up has these IDs; one that does not exist has empty ones. */
  predicate HasIds(found: Lookup<Identity>, clientId: string, tenantId: string) {
    || found == Found(Identity(clientId, tenantId))
    || (found.NotFound? && clientId == "" && tenantId == "")
  }

  /** The cluster's own IDs: the annotated identity's if one is named, or the configured ones. */
  ghost predicate Owns(s: Setup, ids: Ids) {
    && OwnsSubscription(s, ids.subscriptionId)
    && (if Annotated(s) then forall r | Refers(s, r) :: HasIds(s.identities(r), ids.clientId, ids.tenantId)
        else ids.clientId == s.configured.clientId && ids.tenantId == s.configured.tenantId)
  }

  /** The management cluster's IDs, all three. */
  predicate ManagementOwns(s: Setup, ids: Ids) {
    && s.management.Found? && s.management.value.identityRef.Some?
    && ids.subscriptionId == s.management.value.subscriptionId
    && HasIds(s.identities(s.management.value.identityRef.value), ids.clientId, ids.tenantId)
  }

  /** The management cluster's identity cannot be had: it or its reference is missing, or a lookup fails. */
  predicate ManagementFails(s: Setup) {
    s.management.Found? && s.management.value.identityRef.Some? ==> s.identities(s.management.value.identityRef.value).LookupError?
  }

  /**
   All three IDs are the cluster's own if none of those is empty, and otherwise all three are the
   management cluster's; it is an error exactly if a lookup this takes fails.
   */
  ghost predicate Unmixed(s: Setup, r: Option<Ids>) {
    && (forall own | Owns(s, own) && own.subscriptionId != "" && own.clientId != "" && own.tenantId != "" :: r == Some(own))
    && (forall own | Owns(s, own) && (own.subscriptionId == "" || own.clientId == "" || own.tenantId == "") ::
          && (r.Some? ==> ManagementOwns(s, r.value))
          && (r.None? <==> ManagementFails(s)))
    && ((forall own :: !Owns(s, own)) ==> r.None?)
  }

  /** Never a mixture; the cluster has one set of own IDs, unless the lookup of its annotated identity fails. */
  lemma NeverAMixture(s: Setup)
    ensures Unmixed(s, PatcherIds(s))
    ensures (forall own :: !Owns(s, own)) <==> Annotated(s) && exists r | Refers(s, r) :: s.identities(r).LookupError?
    ensures forall p, q | Owns(s, p) && Owns(s, q) :: p == q
  {
    if Annotated(s) { assert Refers(s, AsoIdentityRef(s).value); }
    if OwnIds(s).Some? { assert Owns(s, OwnIds(s).value); }
  }

  /**
   The identity a run authenticates with: the annotated one, and only where none is named the
   configured reference's, with the management cluster's if that one cannot be looked up.
   */
  lemma AuthenticatesAs(s: Setup, identity: Identity)
    requires !s.kind.AzureCluster?
    ensures InfraClusterIdentity(s) == Some(identity) <==>
              if Annotated(s) then exists r | Refers(s, r) :: HasIds(s.identities(r), identity.clientId, identity.tenantId)
              else if s.clusterIdentityRef.Some? && !s.identities(s.clusterIdentityRef.value).LookupError?
              then HasIds(s.identities(s.clusterIdentityRef.value), identity.clientId, identity.tenantId)
              else !ManagementFails(s) && HasIds(s.identities(s.management.value.identityRef.value), identity.clientId, identity.tenantId)
  {
    if Annotated(s) { assert Refers(s, AsoIdentityRef(s).value); }
  }

  /**
   For an AzureASOManagedCluster whose annotated identity exists with non-empty IDs, the patcher's
   client and tenant IDs are those of the identity it authenticates with exactly if a subscription
   is given, or the management cluster's identity happens to have the same IDs.
   */
  lemma CredentialsAgreeIff(s: Setup, identity: Identity)
    requires s.kind.AzureASOManagedCluster? && AsoIdentityRef(s).Some?
    requires s.identities(AsoIdentityRef(s).value) == Found(identity) && identity.clientId != "" && identity.tenantId != ""
    requires PatcherIds(s).Some?
    ensures InfraClusterIdentity(s) == Some(identity)
    ensures (PatcherIds(s).value.clientId == identity.clientId && PatcherIds(s).value.tenantId == identity.tenantId)
       <==> (OwnSubscription(s) != "" || ManagementIdentity(s) == Some(identity))
  {}

  /** Without a subscription the two can differ: here the patcher has the management cluster's client ID. */
  lemma CredentialsCanDisagree()
    ensures exists s: Setup :: s.kind.AzureASOManagedCluster? && PatcherIds(s).Some? && InfraClusterIdentity(s).Some?
              && PatcherIds(s).value.clientId != InfraClusterIdentity(s).value.clientId
  {
    var own := Ref("own", "");
    var identities := (r: Ref) => if r == own then Found(Identity("a", "t")) else Found(Identity("m", "t"));
    var s := Setup(AzureASOManagedCluster, Ids("", "", ""), map[], map[IDENTITY_NAME := "own"], None, identities,
                   Found(Management("sub", Some(Ref("mc", "org")))));
    assert Get(s.infraAnnotations, IDENTITY_NAME) == "own" && Get(s.infraAnnotations, IDENTITY_NAMESPACE) == "";
    assert AsoIdentityRef(s) == Some(own);
    CredentialsAgreeIff(s, Identity("a", "t"));
    assert PatcherIds(s) == Some(Ids("sub", "m", "t"));
  }
}
