// Kubernetes objects as the agent sees them, the AppliedManifestWork accessors of pkg/ocm/ocm.go,
// and the lookups and copies of pkg/util/unstructured.go.

module Objects {
  import opened Base
  import opened Text
  import opened Schema
  import opened Diff
  import opened Index

  type RawStatus = string

  datatype OwnerReference = OwnerReference(apiVersion: string, kind: string, name: string)

  datatype AppliedResource = AppliedResource(group: string, version: string, resource: string, namespace: string,
                                             name: string, uid: string)

  datatype AppliedContent = AppliedContent(manifestWorkName: string, appliedResources: seq<AppliedResource>)

  // goStruct tells a Go struct with Spec and Status fields from an *unstructured.Unstructured, which
  // is what the dynamic informers deliver; applied is what converting the object to an
  // AppliedManifestWork yields, None when the conversion fails.
  datatype Object = Object(
    gvk: GVK, namespace: string, name: string, uid: string,
    labels: map<string, string>, annotations: map<string, string>, owners: seq<OwnerReference>,
    resourceVersion: string, generation: int, creationTimestamp: int, managedFields: seq<string>,
    goStruct: bool, spec: Option<string>, status: Option<RawStatus>, applied: Option<AppliedContent>)

  datatype AppliedManifestWork = AppliedManifestWork(name: string, uid: string, content: AppliedContent)

  predicate IsAppliedManifestWork(obj: Object) {
    obj.gvk == APPLIED_MANIFEST_WORK_GVK
  }

  function ToAppliedManifestWork(obj: Object): Option<AppliedManifestWork> {
    if obj.applied.None? then None else Some(AppliedManifestWork(obj.name, obj.uid, obj.applied.value))
  }

  // ----- the parallel lists of an AppliedManifestWork -----

  function GvrOf(r: AppliedResource): GVR {
    GVR(r.group, r.version, r.resource)
  }

  function InfoOf(resources: seq<AppliedResource>): AppliedManifestInfo {
    AppliedManifestInfo(seq(|resources|, i requires 0 <= i < |resources| => resources[i].uid),
                        seq(|resources|, i requires 0 <= i < |resources| => GvrOf(resources[i])))
  }

  method ListGVRs(resources: seq<AppliedResource>) returns (gvrs: seq<GVR>)
    ensures gvrs == InfoOf(resources).gvrs
    ensures |gvrs| == |resources|
    ensures forall i :: 0 <= i < |resources| ==>
      gvrs[i].group == resources[i].group && gvrs[i].version == resources[i].version && gvrs[i].resource == resources[i].resource
  {
    gvrs := [];
    for i := 0 to |resources|
      invariant |gvrs| == i && forall j :: 0 <= j < i ==> gvrs[j] == GvrOf(resources[j])
    {
      gvrs := gvrs + [GvrOf(resources[i])];
    }
  }

  method GetTrackedObjectsUID(resources: seq<AppliedResource>) returns (uids: seq<string>)
    ensures uids == InfoOf(resources).uids
    ensures |uids| == |resources| && forall i :: 0 <= i < |resources| ==> uids[i] == resources[i].uid
  {
    uids := [];
    for i := 0 to |resources|
      invariant |uids| == i && forall j :: 0 <= j < i ==> uids[j] == resources[j].uid
    {
      uids := uids + [resources[i].uid];
    }
  }

  // ----- the owning AppliedManifestWork -----

  const AW_API_VERSION := "work.open-cluster-management.io/v1"

  predicate IsAppliedOwner(ref: OwnerReference) {
    ref.apiVersion == AW_API_VERSION && ref.kind == "AppliedManifestWork"
  }

  ghost predicate FirstAppliedOwner(owners: seq<OwnerReference>, i: int) {
    0 <= i < |owners| && IsAppliedOwner(owners[i]) && forall j :: 0 <= j < i ==> !IsAppliedOwner(owners[j])
  }

  // The name in the first AppliedManifestWork reference, or "".
  function AppliedOwnerName(owners: seq<OwnerReference>): (name: string)
    ensures forall i :: FirstAppliedOwner(owners, i) ==> name == owners[i].name
    ensures (forall i :: 0 <= i < |owners| ==> !IsAppliedOwner(owners[i])) ==> name == ""
  {
    if owners == [] then ""
    else if IsAppliedOwner(owners[0]) then owners[0].name
    else
      assert forall i :: FirstAppliedOwner(owners, i) ==> i > 0 && FirstAppliedOwner(owners[1..], i - 1);
      AppliedOwnerName(owners[1..])
  }

  /** An owner counts iff its API version and kind are those of AppliedManifestWork. */
  lemma AppliedOwnerIff(ref: OwnerReference)
    ensures IsAppliedOwner(ref) <==>
              ref.apiVersion == APPLIED_MANIFEST_WORK_GVK.group + "/" + APPLIED_MANIFEST_WORK_GVK.version
              && ref.kind == APPLIED_MANIFEST_WORK_GVK.kind
  {
    assert AW_API_VERSION == APPLIED_MANIFEST_WORK_GVK.group + "/" + APPLIED_MANIFEST_WORK_GVK.version;
  }

  method GetAppliedManifestWorkName(obj: Object) returns (name: string)
    ensures name == AppliedOwnerName(obj.owners)
  {
    for i := 0 to |obj.owners|
      invariant AppliedOwnerName(obj.owners) == AppliedOwnerName(obj.owners[i..])
    {
      if IsAppliedOwner(obj.owners[i]) {
        return obj.owners[i].name;
      }
      assert obj.owners[i..][1..] == obj.owners[i + 1..];
    }
    return "";
  }

  predicate IsManagedByAppliedManifestWork(obj: Object) {
    AppliedOwnerName(obj.owners) != ""
  }

  // ----- listers and queue keys -----

  // What the informers have cached, per resource, under the indexer key namespace/name or name.
  type Store = map<string, Object>
  type Cluster = map<GVR, Store>
  type Listers = map<string, Lister>

  datatype Key = Key(gvkKey: string, namespaceNameKey: string, deleted: Option<Object>)

  function KeyForGroupVersionKindNamespaceName(obj: Object): Key {
    Key(GroupVersionString(obj.gvk.group, obj.gvk.version) + "/" + obj.gvk.kind,
        MetaNamespaceKey(obj.namespace, obj.name), None)
  }

  datatype Lookup = Found(obj: Object) | NotFound | ListerNotFound | InvalidKey

  // getObject asks the indexer for namespace + "/" + name, or for the bare name.
  function GetObject(store: Store, namespace: string, name: string): Lookup {
    match Find(store, if namespace != "" then namespace + "/" + name else name)
    case Some(obj) => Found(obj)
    case None => NotFound
  }

  function GetObjectFromKey(listers: Listers, cluster: Cluster, key: Key): Lookup {
    if key.gvkKey !in listers then ListerNotFound
    else
      match SplitMetaNamespaceKey(key.namespaceNameKey)
      case None => InvalidKey
      case Some((namespace, name)) => GetObject(GetOr(cluster, listers[key.gvkKey].gvr, map[]), namespace, name)
  }

  function GetAppliedManifestWork(obj: Object, listers: Listers, cluster: Cluster): Option<AppliedManifestWork> {
    var name := AppliedOwnerName(obj.owners);
    if name == "" || AW_KEY !in listers then None
    else
      match GetObject(GetOr(cluster, listers[AW_KEY].gvr, map[]), "", name)
      case Found(o) => ToAppliedManifestWork(o)
      case _ => None
  }

  /** The AppliedManifestWork of an object: what the AppliedManifestWork informer has cached under the name
      in the object's first such owner reference, with that object's own name, UID and content. */
  lemma OwnerFoundIff(obj: Object, listers: Listers, cluster: Cluster, aw: AppliedManifestWork)
    ensures GetAppliedManifestWork(obj, listers, cluster) == Some(aw) <==>
              && AppliedOwnerName(obj.owners) != "" && AW_KEY in listers
              && listers[AW_KEY].gvr in cluster && AppliedOwnerName(obj.owners) in cluster[listers[AW_KEY].gvr]
              && var o := cluster[listers[AW_KEY].gvr][AppliedOwnerName(obj.owners)];
                 o.applied == Some(aw.content) && o.name == aw.name && o.uid == aw.uid
  {
  }

  /** A lookup by key: without a lister it says so; a name with two slashes is malformed; else it reads the
      cache of the lister's resource under the name as it stands, or, where that starts with its one slash,
      under the rest. */
  lemma LookupCases(listers: Listers, cluster: Cluster, key: Key)
    ensures var r, name := GetObjectFromKey(listers, cluster, key), key.namespaceNameKey;
            && (r == ListerNotFound <==> key.gvkKey !in listers)
            && (r == InvalidKey <==> key.gvkKey in listers && OccursTwice('/', name))
            && (r.Found? || r == NotFound ==>
                  var store := GetOr(cluster, listers[key.gvkKey].gvr, map[]);
                  var at := if name != "" && name[0] == '/' then name[1..] else name;
                  r == if at in store then Found(store[at]) else NotFound)
  {
    SplitCases(key.namespaceNameKey);
  }

  predicate SlashFreeObject(obj: Object) {
    SlashFreeKind(obj.gvk) && SlashFree(obj.namespace) && SlashFree(obj.name)
  }

  /** Key round trip: once the informer of an object's kind has started, the key the object is queued
      under reads that informer's cache at exactly the object's entry. */
  lemma QueuedKeyFindsObject(s: State, obj: Object, gvr: GVR, channel: nat, cluster: Cluster)
    requires SlashFreeObject(obj)
    ensures var listers := StartInformer(s, KindKey(obj.gvk), gvr, channel).listers;
            GetObjectFromKey(listers, cluster, KeyForGroupVersionKindNamespaceName(obj))
            == match Find(GetOr(cluster, gvr, map[]), MetaNamespaceKey(obj.namespace, obj.name))
               case Some(o) => Found(o)
               case None => NotFound
  {
    NamespaceNameRoundTrip(obj.namespace, obj.name);
    QueueKeyIsKindKey(obj.gvk);
  }

  /** ... and informers of other kinds starting or stopping make no difference to it. */
  lemma OtherKindsDoNotMatter(s: State, obj: Object, other: GVK, gvr: GVR, channel: nat, cluster: Cluster)
    requires SlashFreeObject(obj) && SlashFreeKind(other) && other != obj.gvk
    ensures GetObjectFromKey(StartInformer(s, KindKey(other), gvr, channel).listers, cluster, KeyForGroupVersionKindNamespaceName(obj))
         == GetObjectFromKey(s.listers, cluster, KeyForGroupVersionKindNamespaceName(obj))
    ensures match StopInformer(s, KindKey(other))
            case Panic => true
            case Fine(t) =>
              GetObjectFromKey(t.listers, cluster, KeyForGroupVersionKindNamespaceName(obj))
              == GetObjectFromKey(s.listers, cluster, KeyForGroupVersionKindNamespaceName(obj))
  {
    KindKeyInjective(other, obj.gvk);
    QueueKeyIsKindKey(obj.gvk);
  }

  // ----- the copy queued for a deleted object -----

  const LAST_APPLIED := "kubectl.kubernetes.io/last-applied-configuration"

  function ZeroFields(obj: Object): Object {
    obj.(managedFields := [], creationTimestamp := 0, generation := 0, resourceVersion := "", uid := "",
         annotations := obj.annotations - {LAST_APPLIED})
  }

  function CopyObjectMetaAndType(obj: Object): Object {
    var dest := ZeroFields(obj);
    if dest.goStruct then dest.(spec := None, status := None) else dest
  }

  /** The copy queued for a deleted object, field by field: what identifies its version is cleared, and one
      annotation; all else but spec and status stays. */
  lemma CopyByFields(obj: Object)
    ensures var copy := CopyObjectMetaAndType(obj);
            && copy.gvk == obj.gvk && copy.namespace == obj.namespace && copy.name == obj.name
            && copy.labels == obj.labels && copy.owners == obj.owners && copy.applied == obj.applied
            && copy.uid == "" && copy.resourceVersion == "" && copy.generation == 0 && copy.creationTimestamp == 0
            && copy.managedFields == []
            && (forall k :: k in copy.annotations <==> k in obj.annotations && k != "kubectl.kubernetes.io/last-applied-configuration")
            && (forall k :: k in copy.annotations ==> copy.annotations[k] == obj.annotations[k])
  {
  }

  /** The copy is without spec and status exactly for Go structs and for objects that have neither. */
  lemma CopyStrippedIff(obj: Object)
    ensures var copy := CopyObjectMetaAndType(obj);
            && (copy.spec.None? && copy.status.None? <==> obj.goStruct || (obj.spec.None? && obj.status.None?))
            && (!obj.goStruct ==> copy.spec == obj.spec && copy.status == obj.status)
  {
  }

  function GetObjectStatusAsBytes(obj: Object): Option<RawStatus> {
    if obj.goStruct then None else obj.status
  }

  /** Only an unstructured object with a status has something to report, and that is its status. */
  lemma StatusReadIff(obj: Object, status: RawStatus)
    ensures GetObjectStatusAsBytes(obj) == Some(status) <==> !obj.goStruct && obj.status == Some(status)
  {
  }
}
