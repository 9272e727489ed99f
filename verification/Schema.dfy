// Group/version/resource and group/version/kind identifiers, the string keys built from them
// (pkg/util/keys.go) and the table of kinds the agent never watches (pkg/agent/agent.go).

module Schema {
  import opened Base
  import opened Text

  datatype GVR = GVR(group: string, version: string, resource: string)
  datatype GVK = GVK(group: string, version: string, kind: string)

  // schema.GroupVersion.String()
  function GroupVersionString(group: string, version: string): string {
    if group != "" then group + "/" + version else version
  }

  // schema.GroupVersionKind.String()
  function GvkString(gvk: GVK): string {
    gvk.group + "/" + gvk.version + ", Kind=" + gvk.kind
  }

  const EXCLUDED_GVKS: set<string> := {
    "rbac.authorization.k8s.io/v1, Kind=ClusterRoleBinding",
    "rbac.authorization.k8s.io/v1, Kind=ClusterRole",
    "rbac.authorization.k8s.io/v1, Kind=Role",
    "rbac.authorization.k8s.io/v1, Kind=RoleBinding",
    "/v1, Kind=Secret",
    "/v1, Kind=ConfigMap",
    "/v1, Kind=ServiceAccount"
  }

  predicate Excluded(gvk: GVK) {
    GvkString(gvk) in EXCLUDED_GVKS
  }

  // The kinds behind those names.
  const EXCLUDED_KINDS: set<GVK> := {
    GVK("rbac.authorization.k8s.io", "v1", "ClusterRoleBinding"),
    GVK("rbac.authorization.k8s.io", "v1", "ClusterRole"),
    GVK("rbac.authorization.k8s.io", "v1", "Role"),
    GVK("rbac.authorization.k8s.io", "v1", "RoleBinding"),
    GVK("", "v1", "Secret"),
    GVK("", "v1", "ConfigMap"),
    GVK("", "v1", "ServiceAccount")
  }

  const APPLIED_MANIFEST_WORK_GVK := GVK("work.open-cluster-management.io", "v1", "AppliedManifestWork")
  const APPLIED_MANIFEST_WORK_GVR := GVR("work.open-cluster-management.io", "v1", "appliedmanifestworks")

  function KeyForGroupVersionKind(group: string, version: string, kind: string): string {
    if group == "" then version + "/" + kind else group + "/" + version + "/" + kind
  }

  function KindKey(gvk: GVK): string {
    KeyForGroupVersionKind(gvk.group, gvk.version, gvk.kind)
  }

  const AW_KEY: string := KindKey(APPLIED_MANIFEST_WORK_GVK)

  // cache.MetaNamespaceKeyFunc
  function MetaNamespaceKey(namespace: string, name: string): string {
    if namespace != "" then namespace + "/" + name else name
  }

  // cache.SplitMetaNamespaceKey; None is its "unexpected key format" error.
  function SplitMetaNamespaceKey(key: string): Option<(string, string)> {
    match Cut(key, '/')
    case None => Some(("", key))
    case Some((namespace, name)) => if '/' in name then None else Some((namespace, name))
  }

  /** A key with two slashes is malformed; one with a slash in front has no namespace, and neither has one
      without a slash. */
  lemma SplitCases(key: string)
    ensures SplitMetaNamespaceKey(key) == None <==> OccursTwice('/', key)
    ensures match SplitMetaNamespaceKey(key)
            case None => true
            case Some((namespace, name)) =>
              if namespace != "" then key == namespace + "/" + name
              else key == if key != "" && key[0] == '/' then "/" + name else name
  {
    if '/' in key {
      CutTwice(key, '/');
    }
  }

  predicate SlashFree(s: string) {
    '/' !in s
  }

  predicate SlashFreeKind(gvk: GVK) {
    SlashFree(gvk.group) && SlashFree(gvk.version) && SlashFree(gvk.kind)
  }

  /** The namespace/name half of a queue key survives the trip through the queue. */
  lemma NamespaceNameRoundTrip(namespace: string, name: string)
    requires SlashFree(namespace) && SlashFree(name)
    ensures SplitMetaNamespaceKey(MetaNamespaceKey(namespace, name)) == Some((namespace, name))
  {
    if namespace != "" {
      assert namespace + "/" + name == namespace + ['/'] + name;
      CutJoined(namespace, '/', name);
    }
  }

  /** The key an object is queued under names the kind exactly as the informer of that kind does. */
  lemma QueueKeyIsKindKey(gvk: GVK)
    ensures GroupVersionString(gvk.group, gvk.version) + "/" + gvk.kind == KindKey(gvk)
  {
  }

  /** Distinct kinds never share a lister key. */
  lemma KindKeyInjective(a: GVK, b: GVK)
    requires SlashFreeKind(a) && SlashFreeKind(b)
    ensures KindKey(a) == KindKey(b) <==> a == b
  {
    KindKeyParses(a);
    KindKeyParses(b);
  }

  function ParseKindKey(key: string): Option<GVK> {
    match Cut(key, '/')
    case None => None
    case Some((first, rest)) =>
      match Cut(rest, '/')
      case None => Some(GVK("", first, rest))
      case Some((version, kind)) => Some(GVK(first, version, kind))
  }

  lemma KindKeyParses(gvk: GVK)
    requires SlashFreeKind(gvk)
    ensures ParseKindKey(KindKey(gvk)) == Some(gvk)
  {
    var tail := gvk.version + ['/'] + gvk.kind;
    CutJoined(gvk.version, '/', gvk.kind);
    if gvk.group == "" {
      assert KindKey(gvk) == tail;
    } else {
      assert KindKey(gvk) == gvk.group + ['/'] + tail;
      CutJoined(gvk.group, '/', tail);
    }
  }

  // Without slash-freeness two kinds can share a lister key.
  lemma KindKeyNeedsSlashFree()
    ensures var a, b := GVK("", "apps/v1", "Deployment"), GVK("apps", "v1", "Deployment");
            a != b && KindKey(a) == KindKey(b)
  {
    assert "apps/v1" + "/" + "Deployment" == "apps" + "/" + "v1" + "/" + "Deployment";
  }

  // ----- excluded kinds -----

  lemma CutAtComma(version: string, rest: string, version': string, rest': string)
    requires version + [','] + rest == version' + [','] + rest' && ',' !in version' && ',' !in rest'
    ensures version == version' && rest == rest'
  {
    var s := version + [','] + rest;
    CutJoined(version', ',', rest');
    assert s[|version|] == ',' && s[|version'|] == ',';
    assert forall i :: |version'| < i < |s| ==> s[i] == rest'[i - |version'| - 1];
    assert forall i :: 0 <= i < |version'| ==> s[i] == version'[i];
    assert |version| == |version'|;
    assert version == s[..|version|] && rest == s[|version| + 1..];
  }

  // The string of a kind names no other slash-free kind.
  lemma GvkStringInjective(a: GVK, b: GVK)
    requires SlashFreeKind(a) && SlashFreeKind(b) && ',' !in b.version && ',' !in b.kind
    ensures GvkString(a) == GvkString(b) ==> a == b
  {
    if GvkString(a) == GvkString(b) {
      var ra, rb := " Kind=" + a.kind, " Kind=" + b.kind;
      assert GvkString(a) == a.group + ['/'] + (a.version + [','] + ra);
      assert GvkString(b) == b.group + ['/'] + (b.version + [','] + rb);
      CutJoined(a.group, '/', a.version + [','] + ra);
      CutJoined(b.group, '/', b.version + [','] + rb);
      CutAtComma(a.version, ra, b.version, rb);
      assert a.kind == ra[6..] && b.kind == rb[6..];
    }
  }

  lemma BindingString()
    ensures GvkString(GVK("rbac.authorization.k8s.io", "v1", "ClusterRoleBinding")) == "rbac.authorization.k8s.io/v1, Kind=ClusterRoleBinding"
  {
  }

  lemma ClusterRoleString()
    ensures GvkString(GVK("rbac.authorization.k8s.io", "v1", "ClusterRole")) == "rbac.authorization.k8s.io/v1, Kind=ClusterRole"
  {
  }

  lemma RoleStrings()
    ensures GvkString(GVK("rbac.authorization.k8s.io", "v1", "Role")) == "rbac.authorization.k8s.io/v1, Kind=Role"
    ensures GvkString(GVK("rbac.authorization.k8s.io", "v1", "RoleBinding")) == "rbac.authorization.k8s.io/v1, Kind=RoleBinding"
  {
  }

  lemma CoreStrings()
    ensures GvkString(GVK("", "v1", "Secret")) == "/v1, Kind=Secret"
    ensures GvkString(GVK("", "v1", "ConfigMap")) == "/v1, Kind=ConfigMap"
    ensures GvkString(GVK("", "v1", "ServiceAccount")) == "/v1, Kind=ServiceAccount"
  {
  }

  predicate Plain(gvk: GVK) {
    SlashFreeKind(gvk) && ',' !in gvk.version && ',' !in gvk.kind
  }

  // none of these has a slash or a comma in it
  lemma PlainNames()
    ensures SlashFree("rbac.authorization.k8s.io") && SlashFree("") && SlashFree("v1") && ',' !in "v1"
  {
  }

  lemma PlainRbacKinds()
    ensures SlashFree("ClusterRoleBinding") && ',' !in "ClusterRoleBinding" && SlashFree("ClusterRole") && ',' !in "ClusterRole"
    ensures SlashFree("Role") && ',' !in "Role" && SlashFree("RoleBinding") && ',' !in "RoleBinding"
  {
  }

  lemma PlainCoreKinds()
    ensures SlashFree("Secret") && ',' !in "Secret" && SlashFree("ConfigMap") && ',' !in "ConfigMap"
    ensures SlashFree("ServiceAccount") && ',' !in "ServiceAccount"
  {
  }

  lemma ExcludedKindsPlain(gvk: GVK)
    requires gvk in EXCLUDED_KINDS
    ensures Plain(gvk)
  {
    PlainNames();
    PlainRbacKinds();
    PlainCoreKinds();
  }

  /** The kinds the agent does not watch are these seven. */
  lemma ExcludedIff(gvk: GVK)
    requires SlashFreeKind(gvk)
    ensures Excluded(gvk) <==> gvk in EXCLUDED_KINDS
  {
    BindingString();
    ClusterRoleString();
    RoleStrings();
    CoreStrings();
    if Excluded(gvk) {
      var kind :| kind in EXCLUDED_KINDS && GvkString(kind) == GvkString(gvk);
      ExcludedKindsPlain(kind);
      GvkStringInjective(gvk, kind);
    }
  }
}
