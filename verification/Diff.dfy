// AppliedManifestInfo and the diff between two of them (pkg/util/utils.go).

module Diff {
  import opened Schema

  datatype AppliedManifestInfo = AppliedManifestInfo(uids: seq<string>, gvrs: seq<GVR>)

  const EMPTY_INFO := AppliedManifestInfo([], [])

  predicate Aligned(info: AppliedManifestInfo) {
    |info.uids| == |info.gvrs|
  }

  ghost predicate Distinct<T>(s: seq<T>) {
    forall i, j :: 0 <= i < j < |s| ==> s[i] != s[j]
  }

  function Elements<T>(s: seq<T>): set<T> {
    set x | x in s
  }

  /** The GVR a Go map filled front to back keeps for a UID: that of its last occurrence. */
  ghost predicate LastGvr(info: AppliedManifestInfo, uid: string, gvr: GVR)
    requires |info.uids| <= |info.gvrs|
  {
    exists i :: 0 <= i < |info.uids| && info.uids[i] == uid && info.gvrs[i] == gvr
                && forall j :: i < j < |info.uids| ==> info.uids[j] != uid
  }

  // part lists exactly the given UIDs, once each, with the GVRs info keeps for them.
  ghost predicate Selection(part: AppliedManifestInfo, info: AppliedManifestInfo, uids: set<string>)
    requires |info.uids| <= |info.gvrs|
  {
    && Aligned(part)
    && Distinct(part.uids)
    && Elements(part.uids) == uids
    && forall i :: 0 <= i < |part.uids| ==> LastGvr(info, part.uids[i], part.gvrs[i])
  }

  /** What the diff may return; map iteration order leaves the order of the lists open. */
  ghost predicate IsDiff(base: AppliedManifestInfo, updated: AppliedManifestInfo,
                         added: AppliedManifestInfo, removed: AppliedManifestInfo)
    requires |base.uids| <= |base.gvrs| && |updated.uids| <= |updated.gvrs|
  {
    if base.uids == [] then added == updated && removed == EMPTY_INFO
    else if updated.uids == [] then added == EMPTY_INFO && removed == base
    else
      && Selection(added, updated, Elements(updated.uids) - Elements(base.uids))
      && Selection(removed, base, Elements(base.uids) - Elements(updated.uids))
  }

  lemma AppendSelection(part: AppliedManifestInfo, info: AppliedManifestInfo, uids: set<string>, uid: string, gvr: GVR)
    requires |info.uids| <= |info.gvrs|
    requires Selection(part, info, uids) && uid !in uids && LastGvr(info, uid, gvr)
    ensures Selection(Append(part, uid, gvr), info, uids + {uid})
  {
  }

  // convert slices to a map, later entries overwriting earlier ones
  method ToMap(info: AppliedManifestInfo) returns (m: map<string, GVR>)
    requires |info.uids| <= |info.gvrs|
    ensures m.Keys == Elements(info.uids)
    ensures forall uid :: uid in m ==> LastGvr(info, uid, m[uid])
  {
    m := map[];
    for i := 0 to |info.uids|
      invariant m.Keys == Elements(info.uids[..i])
      invariant forall uid :: uid in m ==>
        exists l :: 0 <= l < i && info.uids[l] == uid && info.gvrs[l] == m[uid]
                    && forall j :: l < j < i ==> info.uids[j] != uid
    {
      assert info.uids[..i + 1] == info.uids[..i] + [info.uids[i]];
      m := m[info.uids[i] := info.gvrs[i]];
    }
    assert info.uids[..|info.uids|] == info.uids;
  }

  method GetAddedRemovedInfo(base: AppliedManifestInfo, updated: AppliedManifestInfo)
    returns (added: AppliedManifestInfo, removed: AppliedManifestInfo)
    requires |base.uids| <= |base.gvrs| && |updated.uids| <= |updated.gvrs|
    ensures IsDiff(base, updated, added, removed)
  {
    added, removed := EMPTY_INFO, EMPTY_INFO;
    if base.uids == [] {
      return updated, removed;
    }
    if updated.uids == [] {
      return added, base;
    }
    var mapBase := ToMap(base);
    var mapUpdated := ToMap(updated);
    removed, mapUpdated := CollectRemoved(base, mapBase, mapUpdated);
    added := CollectAll(updated, mapUpdated);
  }

  // first loop: collect what only the base has, and strike what both have from the updated map
  method CollectRemoved(ghost base: AppliedManifestInfo, mapBase: map<string, GVR>, mapUpdated: map<string, GVR>)
    returns (removed: AppliedManifestInfo, rest: map<string, GVR>)
    requires |base.uids| <= |base.gvrs|
    requires forall uid :: uid in mapBase ==> LastGvr(base, uid, mapBase[uid])
    ensures Selection(removed, base, mapBase.Keys - mapUpdated.Keys)
    ensures rest == mapUpdated - mapBase.Keys
  {
    removed, rest := EMPTY_INFO, mapUpdated;
    var todo := mapBase.Keys;
    while todo != {}
      invariant todo <= mapBase.Keys
      invariant Selection(removed, base, mapBase.Keys - todo - mapUpdated.Keys)
      invariant rest == mapUpdated - (mapBase.Keys - todo)
      decreases todo
    {
      var key :| key in todo;
      ghost var done := mapBase.Keys - todo - mapUpdated.Keys;
      if key !in rest {
        AppendSelection(removed, base, done, key, mapBase[key]);
        removed := Append(removed, key, mapBase[key]);
        assert mapBase.Keys - (todo - {key}) - mapUpdated.Keys == done + {key};
      } else {
        rest := rest - {key};
        assert mapBase.Keys - (todo - {key}) - mapUpdated.Keys == done;
      }
      todo := todo - {key};
    }
  }

  // second loop: collect what is left of the updated map
  method CollectAll(ghost updated: AppliedManifestInfo, rest: map<string, GVR>) returns (added: AppliedManifestInfo)
    requires |updated.uids| <= |updated.gvrs|
    requires forall uid :: uid in rest ==> LastGvr(updated, uid, rest[uid])
    ensures Selection(added, updated, rest.Keys)
  {
    added := EMPTY_INFO;
    var todo := rest.Keys;
    while todo != {}
      invariant todo <= rest.Keys
      invariant Selection(added, updated, rest.Keys - todo)
      decreases todo
    {
      var key :| key in todo;
      AppendSelection(added, updated, rest.Keys - todo, key, rest[key]);
      added := Append(added, key, rest[key]);
      assert rest.Keys - (todo - {key}) == rest.Keys - todo + {key};
      todo := todo - {key};
    }
  }

  function Append(info: AppliedManifestInfo, uid: string, gvr: GVR): (r: AppliedManifestInfo)
    ensures Elements(r.uids) == Elements(info.uids) + {uid}
  {
    AppliedManifestInfo(info.uids + [uid], info.gvrs + [gvr])
  }

  lemma {:induction false} LastOccurrence(info: AppliedManifestInfo, uid: string, n: nat) returns (i: nat)
    requires n <= |info.uids| <= |info.gvrs| && uid in info.uids[..n]
    requires forall j :: n <= j < |info.uids| ==> info.uids[j] != uid
    ensures i < |info.uids| && LastGvr(info, uid, info.gvrs[i])
  {
    if info.uids[n - 1] == uid {
      i := n - 1;
    } else {
      assert info.uids[..n] == info.uids[..n - 1] + [info.uids[n - 1]];
      i := LastOccurrence(info, uid, n - 1);
    }
  }

  lemma {:induction false} SelectionExists(info: AppliedManifestInfo, uids: set<string>) returns (part: AppliedManifestInfo)
    requires |info.uids| <= |info.gvrs| && uids <= Elements(info.uids)
    ensures Selection(part, info, uids)
    decreases uids
  {
    if uids == {} {
      part := EMPTY_INFO;
    } else {
      var uid :| uid in uids;
      assert info.uids[..|info.uids|] == info.uids;
      var i := LastOccurrence(info, uid, |info.uids|);
      part := SelectionExists(info, uids - {uid});
      AppendSelection(part, info, uids - {uid}, uid, info.gvrs[i]);
      part := Append(part, uid, info.gvrs[i]);
      assert uids - {uid} + {uid} == uids;
    }
  }

  // There is always a diff to return.
  lemma DiffExists(base: AppliedManifestInfo, updated: AppliedManifestInfo) returns (diff: Change)
    requires |base.uids| <= |base.gvrs| && |updated.uids| <= |updated.gvrs|
    ensures IsDiff(base, updated, diff.added, diff.removed)
  {
    if base.uids == [] {
      diff := Change(updated, EMPTY_INFO);
    } else if updated.uids == [] {
      diff := Change(EMPTY_INFO, base);
    } else {
      var added := SelectionExists(updated, Elements(updated.uids) - Elements(base.uids));
      var removed := SelectionExists(base, Elements(base.uids) - Elements(updated.uids));
      diff := Change(added, removed);
    }
  }

  /** On every path the UIDs are the two set differences. */
  lemma DiffUids(base: AppliedManifestInfo, updated: AppliedManifestInfo,
                 added: AppliedManifestInfo, removed: AppliedManifestInfo)
    requires |base.uids| <= |base.gvrs| && |updated.uids| <= |updated.gvrs|
    requires IsDiff(base, updated, added, removed)
    ensures Elements(added.uids) == Elements(updated.uids) - Elements(base.uids)
    ensures Elements(removed.uids) == Elements(base.uids) - Elements(updated.uids)
  {
    if base.uids != [] && updated.uids != [] {
    } else if base.uids != [] {
      assert base.uids[0] in base.uids;
    }
  }

  /** Distinct inputs: the early returns agree with the general path. */
  lemma DiffOfDistinct(base: AppliedManifestInfo, updated: AppliedManifestInfo,
                       added: AppliedManifestInfo, removed: AppliedManifestInfo)
    requires Aligned(base) && Aligned(updated) && Distinct(base.uids) && Distinct(updated.uids)
    requires IsDiff(base, updated, added, removed)
    ensures Selection(added, updated, Elements(updated.uids) - Elements(base.uids))
    ensures Selection(removed, base, Elements(base.uids) - Elements(updated.uids))
  {
    DiffUids(base, updated, added, removed);
    if base.uids == [] {
      forall i | 0 <= i < |added.uids| ensures LastGvr(updated, added.uids[i], added.gvrs[i]) {}
    } else if updated.uids == [] {
      forall i | 0 <= i < |removed.uids| ensures LastGvr(base, removed.uids[i], removed.gvrs[i]) {}
    }
  }

  /** Exactly when a diff repeats no UID: an early return passes a repetition on, the general path never. */
  lemma DiffDistinctIff(base: AppliedManifestInfo, updated: AppliedManifestInfo,
                        added: AppliedManifestInfo, removed: AppliedManifestInfo)
    requires |base.uids| <= |base.gvrs| && |updated.uids| <= |updated.gvrs|
    requires IsDiff(base, updated, added, removed)
    ensures Distinct(added.uids) <==> base.uids != [] || Distinct(updated.uids)
    ensures Distinct(removed.uids) <==> base.uids == [] || updated.uids != [] || Distinct(base.uids)
  {
  }

  lemma OnlyElement<T>(s: seq<T>, x: T)
    requires Distinct(s) && Elements(s) == {x}
    ensures s == [x]
  {
    assert |s| < 2 || s[0] != s[1];
    assert x in s;
    assert forall i :: 0 <= i < |s| ==> s[i] in Elements(s);
  }

  /** With a duplicated UID an early return keeps the duplicate, the general path does not. */
  lemma EarlyReturnKeepsDuplicates(g: GVR, h: GVR)
    ensures var twice := AppliedManifestInfo(["u", "u"], [g, h]);
            forall added, removed :: IsDiff(EMPTY_INFO, twice, added, removed) ==> !Distinct(added.uids)
    ensures var base, twice := AppliedManifestInfo(["w"], [g]), AppliedManifestInfo(["u", "u"], [g, h]);
            forall added, removed :: IsDiff(base, twice, added, removed) ==> added == AppliedManifestInfo(["u"], [h])
  {
    var base, twice := AppliedManifestInfo(["w"], [g]), AppliedManifestInfo(["u", "u"], [g, h]);
    forall added, removed | IsDiff(base, twice, added, removed) ensures added == AppliedManifestInfo(["u"], [h]) {
      assert Elements(added.uids) == {"u"};
      OnlyElement(added.uids, "u");
      assert LastGvr(twice, added.uids[0], added.gvrs[0]);
    }
    forall added, removed | IsDiff(EMPTY_INFO, twice, added, removed) ensures !Distinct(added.uids) {
      assert added.uids[0] == added.uids[1];
    }
  }

  datatype Change = Change(added: AppliedManifestInfo, removed: AppliedManifestInfo)

  // The UIDs a consumer holds after applying a list of diffs.
  function Fold(uids: set<string>, changes: seq<Change>): set<string>
    decreases |changes|
  {
    if changes == [] then uids
    else Fold(uids - Elements(changes[0].removed.uids) + Elements(changes[0].added.uids), changes[1..])
  }

  ghost predicate DiffChain(infos: seq<AppliedManifestInfo>, changes: seq<Change>) {
    && |infos| == |changes| + 1
    && (forall i :: 0 <= i < |infos| ==> |infos[i].uids| <= |infos[i].gvrs|)
    && forall i :: 0 <= i < |changes| ==> IsDiff(infos[i], infos[i + 1], changes[i].added, changes[i].removed)
  }

  /** Folding the diffs of any chain of updates yields the last UID set. */
  lemma {:induction false} FoldReachesLast(infos: seq<AppliedManifestInfo>, changes: seq<Change>)
    requires DiffChain(infos, changes)
    ensures Fold(Elements(infos[0].uids), changes) == Elements(infos[|changes|].uids)
    decreases |changes|
  {
    if changes != [] {
      DiffUids(infos[0], infos[1], changes[0].added, changes[0].removed);
      assert Elements(infos[0].uids) - Elements(changes[0].removed.uids) + Elements(changes[0].added.uids)
          == Elements(infos[1].uids);
      FoldReachesLast(infos[1..], changes[1..]);
    }
  }
}
