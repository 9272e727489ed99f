// WorkStatus names (pkg/util/utils.go): built from the AppliedManifestWork's UID and the
// object's kind, namespace and name, joined by dashes and cut at 253 characters.

module Names {
  import opened Base
  import opened Text
  import opened Schema

  const MAX_NAME_LENGTH := 253

  function TruncateString(s: string, maxLen: nat): string {
    if |s| > maxLen then s[..maxLen] else s
  }

  function FoldedGroupVersion(gvk: GVK): string {
    ToLower(Without(GroupVersionString(gvk.group, gvk.version), '/'))
  }

  function FullName(uid: string, gvk: GVK, namespace: string, name: string): string {
    uid + "-" + FoldedGroupVersion(gvk) + "-" + ToLower(gvk.kind) + "-" + namespace + "-" + name
  }

  function BuildWorkstatusName(uid: string, gvk: GVK, namespace: string, name: string): string {
    TruncateString(FullName(uid, gvk, namespace, name), MAX_NAME_LENGTH)
  }

  predicate DashFree(s: string) {
    '-' !in s
  }

  predicate DashFreeKind(gvk: GVK) {
    DashFree(gvk.group) && DashFree(gvk.version) && DashFree(gvk.kind)
  }

  datatype NameParts = NameParts(uid: string, groupVersion: string, kind: string, namespace: string, name: string)

  // Undoes the format, given the length of the UID (UIDs themselves contain dashes).
  function ParseName(uidLen: nat, s: string): Option<NameParts> {
    if |s| <= uidLen || s[uidLen] != '-' then None else
      match Cut(s[uidLen + 1..], '-')
      case None => None
      case Some((groupVersion, r1)) =>
        match Cut(r1, '-')
        case None => None
        case Some((kind, r2)) =>
          match Cut(r2, '-')
          case None => None
          case Some((namespace, name)) => Some(NameParts(s[..uidLen], groupVersion, kind, namespace, name))
  }

  lemma LowerKeepsDashFree(s: string)
    requires DashFree(s)
    ensures DashFree(ToLower(s))
  {
  }

  lemma FoldKeepsDashFree(gvk: GVK)
    requires DashFreeKind(gvk)
    ensures DashFree(FoldedGroupVersion(gvk))
  {
    assert DashFree(GroupVersionString(gvk.group, gvk.version));
    LowerKeepsDashFree(Without(GroupVersionString(gvk.group, gvk.version), '/'));
  }

  /** Parsing recovers every part of an untruncated name. */
  lemma ParseFullName(uid: string, gvk: GVK, namespace: string, name: string)
    requires DashFreeKind(gvk) && DashFree(namespace)
    ensures ParseName(|uid|, FullName(uid, gvk, namespace, name))
         == Some(NameParts(uid, FoldedGroupVersion(gvk), ToLower(gvk.kind), namespace, name))
  {
    var s, gv, kind := FullName(uid, gvk, namespace, name), FoldedGroupVersion(gvk), ToLower(gvk.kind);
    FoldKeepsDashFree(gvk);
    LowerKeepsDashFree(gvk.kind);
    var r2 := namespace + ['-'] + name;
    var r1 := kind + ['-'] + r2;
    var r0 := gv + ['-'] + r1;
    assert s == uid + ['-'] + r0;
    assert s[..|uid|] == uid && s[|uid| + 1..] == r0;
    CutJoined(gv, '-', r1);
    CutJoined(kind, '-', r2);
    CutJoined(namespace, '-', name);
  }

  /** Two untruncated names are equal exactly when all five parts are. */
  lemma NameInjective(u: string, gvk: GVK, ns: string, n: string, u': string, gvk': GVK, ns': string, n': string)
    requires |u| == |u'|
    requires DashFreeKind(gvk) && DashFree(ns) && DashFreeKind(gvk') && DashFree(ns')
    requires |FullName(u, gvk, ns, n)| <= MAX_NAME_LENGTH && |FullName(u', gvk', ns', n')| <= MAX_NAME_LENGTH
    ensures BuildWorkstatusName(u, gvk, ns, n) == BuildWorkstatusName(u', gvk', ns', n')
       <==> u == u' && FoldedGroupVersion(gvk) == FoldedGroupVersion(gvk') && ToLower(gvk.kind) == ToLower(gvk'.kind)
            && ns == ns' && n == n'
  {
    ParseFullName(u, gvk, ns, n);
    ParseFullName(u', gvk', ns', n');
  }

  // ----- the parts of a name, said with the fields of the object -----

  // What strings.ToLower makes of an ASCII character.
  predicate Folds(c: char, d: char) {
    d as int == if 'A' <= c <= 'Z' then c as int + 32 else c as int
  }

  ghost predicate FoldsTo(s: string, t: string) {
    |t| == |s| && forall i :: 0 <= i < |s| ==> Folds(s[i], t[i])
  }

  lemma {:induction false} WithoutJoined(a: string, c: char, b: string)
    requires c !in a && c !in b
    ensures Without(a + [c] + b, c) == a + b
    decreases |a|
  {
    if a == [] {
      assert a + [c] + b == [c] + b && ([c] + b)[1..] == b && a + b == b;
    } else {
      assert (a + [c] + b)[0] == a[0] && (a + [c] + b)[1..] == a[1..] + [c] + b;
      WithoutJoined(a[1..], c, b);
      assert [a[0]] + (a[1..] + b) == a + b;
    }
  }

  /** The group-version part is the group and the version, run together and folded; the kind part is the
      kind, folded. */
  lemma FoldedParts(gvk: GVK)
    requires SlashFree(gvk.group) && SlashFree(gvk.version)
    ensures FoldsTo(gvk.group + gvk.version, FoldedGroupVersion(gvk)) && FoldsTo(gvk.kind, ToLower(gvk.kind))
  {
    if gvk.group != "" {
      WithoutJoined(gvk.group, '/', gvk.version);
      assert GroupVersionString(gvk.group, gvk.version) == gvk.group + ['/'] + gvk.version;
    } else {
      assert gvk.group + gvk.version == gvk.version;
    }
  }

  /** An untruncated name, part by part: the UID, the folded group and version, the folded kind, the
      namespace and the name, with a dash between any two. */
  lemma NameByParts(uid: string, gvk: GVK, namespace: string, name: string) returns (groupVersion: string, kind: string)
    requires SlashFree(gvk.group) && SlashFree(gvk.version)
    ensures FoldsTo(gvk.group + gvk.version, groupVersion) && FoldsTo(gvk.kind, kind)
    ensures FullName(uid, gvk, namespace, name) == uid + "-" + groupVersion + "-" + kind + "-" + namespace + "-" + name
  {
    FoldedParts(gvk);
    groupVersion, kind := FoldedGroupVersion(gvk), ToLower(gvk.kind);
  }

  /** The name is the first 253 characters of that. */
  lemma NameIsCut(uid: string, gvk: GVK, namespace: string, name: string)
    ensures var full, cut := FullName(uid, gvk, namespace, name), BuildWorkstatusName(uid, gvk, namespace, name);
            cut <= full && |cut| <= 253 && (|cut| < 253 ==> cut == full)
  {
  }

  // The same letter but for its case, or the same character.
  predicate FoldTogether(c: char, d: char) {
    || c == d
    || ('A' <= c <= 'Z' && d as int == c as int + 32)
    || ('A' <= d <= 'Z' && c as int == d as int + 32)
  }

  ghost predicate SameFolded(s: string, t: string) {
    |s| == |t| && forall i :: 0 <= i < |s| ==> FoldTogether(s[i], t[i])
  }

  lemma FoldedEqualIff(s: string, t: string, s': string, t': string)
    requires FoldsTo(s, s') && FoldsTo(t, t')
    ensures s' == t' <==> SameFolded(s, t)
  {
    if s' == t' {
      forall i | 0 <= i < |s| ensures FoldTogether(s[i], t[i]) {
        assert Folds(s[i], s'[i]) && Folds(t[i], t'[i]);
      }
    }
    if SameFolded(s, t) {
      forall i | 0 <= i < |s'| ensures s'[i] == t'[i] {
        assert FoldTogether(s[i], t[i]);
        assert Folds(s[i], s'[i]) && Folds(t[i], t'[i]);
      }
      assert s' == t';
    }
  }

  /** Two untruncated names are equal exactly when UID, namespace and name are, and group and version, run
      together, and kind are but for case. */
  lemma NameInjectiveByFields(u: string, gvk: GVK, ns: string, n: string, u': string, gvk': GVK, ns': string, n': string)
    requires |u| == |u'| && SlashFreeKind(gvk) && SlashFreeKind(gvk')
    requires DashFreeKind(gvk) && DashFree(ns) && DashFreeKind(gvk') && DashFree(ns')
    requires |FullName(u, gvk, ns, n)| <= 253 && |FullName(u', gvk', ns', n')| <= 253
    ensures BuildWorkstatusName(u, gvk, ns, n) == BuildWorkstatusName(u', gvk', ns', n')
       <==> u == u' && SameFolded(gvk.group + gvk.version, gvk'.group + gvk'.version) && SameFolded(gvk.kind, gvk'.kind)
            && ns == ns' && n == n'
  {
    NameInjective(u, gvk, ns, n, u', gvk', ns', n');
    FoldedParts(gvk);
    FoldedParts(gvk');
    FoldedEqualIff(gvk.group + gvk.version, gvk'.group + gvk'.version, FoldedGroupVersion(gvk), FoldedGroupVersion(gvk'));
    FoldedEqualIff(gvk.kind, gvk'.kind, ToLower(gvk.kind), ToLower(gvk'.kind));
  }

  // The dash that ends the namespace is the one the name gets split at, and any other will do.
  lemma DashedNamespaceCollides(uid: string, gvk: GVK)
    ensures BuildWorkstatusName(uid, gvk, "a-b", "c") == BuildWorkstatusName(uid, gvk, "a", "b-c")
  {
    var p := uid + "-" + FoldedGroupVersion(gvk) + "-" + ToLower(gvk.kind) + "-";
    assert FullName(uid, gvk, "a-b", "c") == p + "a-b-c" == FullName(uid, gvk, "a", "b-c");
  }

  function Prefix(uid: string, gvk: GVK): string {
    uid + "-" + FoldedGroupVersion(gvk) + "-" + ToLower(gvk.kind) + "-"
  }

  lemma FullNameSplits(uid: string, gvk: GVK, namespace: string, name: string)
    ensures FullName(uid, gvk, namespace, name) == Prefix(uid, gvk) + (namespace + ['-'] + name)
  {
  }

  /** For objects of one kind under one AppliedManifestWork, the exact condition: some other
      namespace and name share the full WorkStatus name iff a dash occurs in either half. */
  lemma AmbiguousIffDashed(uid: string, gvk: GVK, namespace: string, name: string)
    ensures (exists ns, n :: (ns, n) != (namespace, name) && FullName(uid, gvk, ns, n) == FullName(uid, gvk, namespace, name))
       <==> !DashFree(namespace) || !DashFree(name)
  {
    FullNameSplits(uid, gvk, namespace, name);
    if ns, n :| (ns, n) != (namespace, name) && FullName(uid, gvk, ns, n) == FullName(uid, gvk, namespace, name) {
      FullNameSplits(uid, gvk, ns, n);
      SamePrefix(Prefix(uid, gvk), ns + ['-'] + n, namespace + ['-'] + name);
      NeedsSecondDash(ns, n, namespace, name);
    }
    if !DashFree(namespace) || !DashFree(name) {
      var (ns, n) := OtherSplit(namespace, name);
      FullNameSplits(uid, gvk, ns, n);
      assert FullName(uid, gvk, ns, n) == FullName(uid, gvk, namespace, name);
    }
  }

  lemma SamePrefix(p: string, s: string, t: string)
    requires p + s == p + t
    ensures s == t
  {
    assert s == (p + s)[|p|..] && t == (p + t)[|p|..];
  }

  // Another place to cut the joined namespace and name.
  function OtherSplit(namespace: string, name: string): (r: (string, string))
    requires !DashFree(namespace) || !DashFree(name)
    ensures r != (namespace, name) && r.0 + ['-'] + r.1 == namespace + ['-'] + name
  {
    if !DashFree(namespace) then
      var (ns, rest) := Cut(namespace, '-').value;
      assert |ns| < |namespace|;
      assert ns + ['-'] + (rest + ['-'] + name) == namespace + ['-'] + name;
      (ns, rest + ['-'] + name)
    else
      var (front, n) := Cut(name, '-').value;
      assert |n| < |name|;
      assert namespace + ['-'] + front + ['-'] + n == namespace + ['-'] + name;
      (namespace + ['-'] + front, n)
  }

  lemma NeedsSecondDash(ns: string, n: string, namespace: string, name: string)
    requires (ns, n) != (namespace, name) && ns + ['-'] + n == namespace + ['-'] + name
    ensures !DashFree(namespace) || !DashFree(name)
  {
    if DashFree(namespace) && DashFree(name) {
      OnlyOneDash(ns, n, namespace, name);
      assert false;
    }
  }

  lemma OnlyOneDash(ns: string, n: string, namespace: string, name: string)
    requires ns + ['-'] + n == namespace + ['-'] + name
    requires DashFree(namespace) && DashFree(name)
    ensures ns == namespace && n == name
  {
    var s, t := ns + ['-'] + n, namespace + ['-'] + name;
    assert s[|ns|] == '-' && t[|namespace|] == '-';
    assert forall i :: 0 <= i < |namespace| ==> t[i] == namespace[i];
    assert forall i :: |namespace| < i < |t| ==> t[i] == name[i - |namespace| - 1];
    assert ns == s[..|ns|] && namespace == t[..|namespace|];
    assert n == s[|ns| + 1..] && name == t[|namespace| + 1..];
  }

  /** Past 253 characters only the prefix counts, so the object's name no longer does. */
  lemma TruncatedNamesCollide(uid: string, gvk: GVK, namespace: string, name: string, a: string, b: string)
    requires |FullName(uid, gvk, namespace, name)| >= MAX_NAME_LENGTH
    ensures BuildWorkstatusName(uid, gvk, namespace, name + a) == BuildWorkstatusName(uid, gvk, namespace, name + b)
  {
    var s := FullName(uid, gvk, namespace, name);
    assert FullName(uid, gvk, namespace, name + a) == s + a;
    assert FullName(uid, gvk, namespace, name + b) == s + b;
    assert (s + a)[..MAX_NAME_LENGTH] == s[..MAX_NAME_LENGTH] == (s + b)[..MAX_NAME_LENGTH];
  }

  /** The same for the name the WorkStatus really gets: besides a dash, a full name that fills all 253
      characters makes it ambiguous, and nothing else does. */
  lemma NameAmbiguousIff(uid: string, gvk: GVK, namespace: string, name: string)
    ensures (exists ns, n :: (ns, n) != (namespace, name)
                             && BuildWorkstatusName(uid, gvk, ns, n) == BuildWorkstatusName(uid, gvk, namespace, name))
       <==> !DashFree(namespace) || !DashFree(name) || |FullName(uid, gvk, namespace, name)| >= MAX_NAME_LENGTH
  {
    var full := FullName(uid, gvk, namespace, name);
    AmbiguousIffDashed(uid, gvk, namespace, name);
    if ns, n :| (ns, n) != (namespace, name)
                && BuildWorkstatusName(uid, gvk, ns, n) == BuildWorkstatusName(uid, gvk, namespace, name) {
      if |full| < MAX_NAME_LENGTH {
        assert FullName(uid, gvk, ns, n) == full;
      }
    }
    if |full| >= MAX_NAME_LENGTH {
      TruncatedNamesCollide(uid, gvk, namespace, name, "", "x");
      assert name + "" == name && name + "x" != name;
      assert BuildWorkstatusName(uid, gvk, namespace, name + "x") == BuildWorkstatusName(uid, gvk, namespace, name);
    } else if !DashFree(namespace) || !DashFree(name) {
      var ns, n :| (ns, n) != (namespace, name) && FullName(uid, gvk, ns, n) == full;
      assert BuildWorkstatusName(uid, gvk, ns, n) == BuildWorkstatusName(uid, gvk, namespace, name);
    }
  }
}
