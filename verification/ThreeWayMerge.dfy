/**
  The three-way merge behind `MergeSpecs`: what was last applied, what is wanted now, and what is live.
  The patch is what `strategicpatch` computes for objects and whole lists; it is applied with the
  MergePatch function of section 2 of RFC 7386.
*/
module ThreeWayMerge {
  import opened Json
  import opened Options

  // ---- the merge by patches, as the library computes it ----

  predicate BothObjects(a: Json, k: string, b: Json)
  {
    Field(a, k).Object? && Field(b, k).Object?
  }

  /** What must change in `live` to reach `target`, ignoring what `target` does not mention. */
  function Changes(live: Json, target: Json): Json
    decreases target
  {
    Object(map k | k in Fields(target)
                && (if BothObjects(live, k, target) then Changes(Field(live, k), Fields(target)[k]) != EMPTY
                    else k !in Fields(live) || Field(live, k) != Fields(target)[k])
             :: if BothObjects(live, k, target) then Changes(Field(live, k), Fields(target)[k]) else Fields(target)[k])
  }

  /** What `original` has and `target` no longer mentions, marked `Null`. */
  function Deletions(original: Json, target: Json): Json
    decreases target
  {
    Object(map k | k in Fields(original)
                && (k !in Fields(target)
                    || (BothObjects(original, k, target) && Deletions(Field(original, k), Fields(target)[k]) != EMPTY))
             :: if k !in Fields(target) then Null else Deletions(Field(original, k), Fields(target)[k]))
  }

  /** The deletions overlaid with the changes. */
  function Combine(deletions: Json, changes: Json): Json
    decreases changes
  {
    Object(map k | k in Fields(deletions).Keys + Fields(changes).Keys
             :: if k !in Fields(changes) then Fields(deletions)[k]
                else if BothObjects(deletions, k, changes) then Combine(Field(deletions, k), Fields(changes)[k])
                else Fields(changes)[k])
  }

  function Patch(original: Json, target: Json, live: Json): Json
  {
    Combine(Deletions(original, target), Changes(live, target))
  }

  /** MergePatch of RFC 7386. */
  function MergePatch(value: Json, patch: Json): Json
    decreases patch
  {
    if !patch.Object? then patch
    else
      Object(map k | k in Fields(value).Keys + patch.fields.Keys && !(k in patch.fields && patch.fields[k].Null?)
               :: if k in patch.fields then MergePatch(Field(value, k), patch.fields[k]) else Fields(value)[k])
  }

  /** The merged specification; an empty patch is not applied at all. */
  function Merge(original: Json, target: Json, live: Json): (merged: Json)
    ensures live.Object? ==> merged.Object?
  {
    var patch := Patch(original, target, live);
    if patch == EMPTY then live else MergePatch(live, patch)
  }

  // ---- the same, without patches ----

  /** Wanted values win, values that are no longer wanted go, values of others stay. */
  function Reconciled(original: Json, target: Json, live: Json): Json
    decreases target
  {
    if !target.Object? then target
    else
      Object(map k | k in target.fields.Keys + (Fields(live).Keys - Fields(original).Keys)
               :: if k in target.fields then Reconciled(Field(original, k), target.fields[k], Field(live, k))
                  else Fields(live)[k])
  }

  lemma CombineEmpty(j: Json)
    requires j.Object?
    ensures Combine(EMPTY, j) == j && Combine(j, EMPTY) == j
  {}

  lemma ChangesFromNothing(live: Json, target: Json)
    requires target.Object? && !live.Object?
    ensures Changes(live, target) == target
  {}

  lemma MergePatchEmpty(live: Json)
    requires live.Object?
    ensures MergePatch(live, EMPTY) == live
  {}

  lemma DeletionsAt(original: Json, target: Json, k: string)
    requires k in Fields(target) && Fields(target)[k].Object?
    ensures var d := Deletions(Field(original, k), Fields(target)[k]);
            var fields := Deletions(original, target).fields;
            d.Object? && if d == EMPTY then k !in fields else k in fields && fields[k] == d
  {
    if !Field(original, k).Object? { assert Deletions(Field(original, k), Fields(target)[k]) == EMPTY; }
  }

  lemma ChangesAt(live: Json, target: Json, k: string)
    requires k in Fields(target) && Fields(target)[k].Object?
    ensures var c := Changes(Field(live, k), Fields(target)[k]);
            var fields := Changes(live, target).fields;
            c.Object? && if Field(live, k).Object? && c == EMPTY then k !in fields else k in fields && fields[k] == c
  {
    if !Field(live, k).Object? { ChangesFromNothing(Field(live, k), Fields(target)[k]); }
  }

  /** The patch at one member is the patch of that member. */
  lemma PatchAt(original: Json, target: Json, live: Json, k: string)
    requires k in Fields(target) && Fields(target)[k].Object?
    ensures var p := Patch(Field(original, k), Fields(target)[k], Field(live, k));
            var fields := Patch(original, target, live).fields;
            if Field(live, k).Object? && p == EMPTY then k !in fields else k in fields && fields[k] == p
  {
    DeletionsAt(original, target, k);
    ChangesAt(live, target, k);
    var d, c := Deletions(Field(original, k), Fields(target)[k]), Changes(Field(live, k), Fields(target)[k]);
    CombineEmpty(d);
    CombineEmpty(c);
    if Combine(d, c) == EMPTY { CombineEmptyOnly(d, c); }
    CombineAt(Deletions(original, target), Changes(live, target), k);
  }

  lemma CombineEmptyOnly(d: Json, c: Json)
    requires d.Object? && c.Object? && Combine(d, c) == EMPTY
    ensures d == EMPTY && c == EMPTY
  {
    assert d.fields.Keys + c.fields.Keys == Combine(d, c).fields.Keys;
  }

  lemma CombineAt(d: Json, c: Json, k: string)
    ensures k in Combine(d, c).fields <==> k in Fields(d) || k in Fields(c)
    ensures k in Combine(d, c).fields ==>
      Combine(d, c).fields[k] == if k !in Fields(c) then Fields(d)[k]
                                 else if BothObjects(d, k, c) then Combine(Field(d, k), Fields(c)[k]) else Fields(c)[k]
  {}

  /** The patch-based merge and its early return compute the plain merge. */
  lemma {:induction false} MergePatchIsReconciled(original: Json, target: Json, live: Json)
    requires target.Object? && Clean(target)
    ensures MergePatch(live, Patch(original, target, live)) == Reconciled(original, target, live)
    decreases target
  {
    var p := Patch(original, target, live);
    var m, r := MergePatch(live, p), Reconciled(original, target, live);
    forall k
      ensures k in m.fields <==> k in r.fields
      ensures k in m.fields ==> m.fields[k] == r.fields[k]
    {
      if k in target.fields {
        assert r.fields[k] == Reconciled(Field(original, k), target.fields[k], Field(live, k));
      }
      if k in target.fields && target.fields[k].Object? {
        MergePatchIsReconciled(Field(original, k), target.fields[k], Field(live, k));
        MergedObjectAt(original, target, live, k);
      } else if k in target.fields {
        MergedLeafAt(original, target, live, k);
      } else {
        MergedForeignAt(original, target, live, k);
      }
    }
    assert m.fields == r.fields;
  }

  lemma MergedLeafAt(original: Json, target: Json, live: Json, k: string)
    requires k in Fields(target) && !Fields(target)[k].Object? && !Fields(target)[k].Null?
    ensures var m := MergePatch(live, Patch(original, target, live));
            k in m.fields && m.fields[k] == Fields(target)[k]
  {
    assert k !in Deletions(original, target).fields;
    CombineAt(Deletions(original, target), Changes(live, target), k);
  }

  lemma MergedForeignAt(original: Json, target: Json, live: Json, k: string)
    requires k !in Fields(target)
    ensures var m := MergePatch(live, Patch(original, target, live));
            && (k in m.fields <==> k in Fields(live) && k !in Fields(original))
            && (k in m.fields ==> m.fields[k] == Fields(live)[k])
  {
    assert k !in Changes(live, target).fields;
    CombineAt(Deletions(original, target), Changes(live, target), k);
  }

  lemma MergedObjectAt(original: Json, target: Json, live: Json, k: string)
    requires k in Fields(target) && Fields(target)[k].Object?
    ensures var m := MergePatch(live, Patch(original, target, live));
            k in m.fields && m.fields[k] == MergePatch(Field(live, k), Patch(Field(original, k), Fields(target)[k], Field(live, k)))
  {
    PatchAt(original, target, live, k);
    if Field(live, k).Object? { MergePatchEmpty(Field(live, k)); }
  }

  lemma MergeIsReconciled(original: Json, target: Json, live: Json)
    requires target.Object? && Clean(target) && live.Object?
    ensures Merge(original, target, live) == Reconciled(original, target, live)
  {
    MergePatchIsReconciled(original, target, live);
    MergePatchEmpty(live);
  }

  // ---- what the merge does to every path ----

  /** Everything wanted is there afterwards, with the wanted values. */
  lemma {:induction false} WantedPaths(original: Json, target: Json, live: Json, path: Path)
    requires Clean(target) && Has(target, path)
    ensures Has(Reconciled(original, target, live), path)
    ensures HasLeaf(target, path) ==> Find(Reconciled(original, target, live), path) == Find(target, path)
    ensures !HasLeaf(target, path) ==> Find(Reconciled(original, target, live), path).value.Object?
    decreases |path|
  {
    if path != [] {
      WantedPaths(Field(original, path[0]), target.fields[path[0]], Field(live, path[0]), path[1..]);
    }
  }

  /** No step on the way to `path` is replaced by a wanted value, or dropped because it is no longer wanted. */
  predicate Untouched(original: Json, target: Json, path: Path)
  {
    forall i | 0 <= i <= |path| ::
      !HasLeaf(target, path[..i]) && (Has(original, path[..i]) ==> Has(target, path[..i]))
  }

  /** What is not wanted stays exactly when it is untouched, and then as it was. */
  lemma {:induction false} OtherPaths(original: Json, target: Json, live: Json, path: Path)
    requires Clean(target) && !Has(target, path)
    ensures Find(Reconciled(original, target, live), path) == if Untouched(original, target, path) then Find(live, path) else None
    decreases |path|
  {
    var k, rest := path[0], path[1..];
    if !target.Object? {
      assert HasLeaf(target, path[..0]);
    } else if k in target.fields {
      UntouchedInside(original, target, path);
      OtherPaths(Field(original, k), target.fields[k], Field(live, k), rest);
      FindInField(live, path);
    } else {
      UntouchedBelow(original, target, path);
    }
  }

  lemma FindInField(j: Json, path: Path)
    requires |path| >= 2 || (path != [] && path[0] in Fields(j))
    ensures Find(j, path) == Find(Field(j, path[0]), path[1..])
  {}

  lemma HasMember(j: Json, k: string)
    ensures Has(j, [k]) <==> k in Fields(j)
  {
    if k in Fields(j) { assert Find(Fields(j)[k], [k][1..]) == Some(Fields(j)[k]); }
  }

  lemma PrefixStep(path: Path, i: nat)
    requires 1 <= i <= |path|
    ensures path[..i][0] == path[0] && path[..i][1..] == path[1..][..i - 1]
  {}

  lemma UntouchedInside(original: Json, target: Json, path: Path)
    requires path != [] && path[0] in Fields(target)
    ensures Untouched(original, target, path) <==> Untouched(Field(original, path[0]), Fields(target)[path[0]], path[1..])
  {
    var o, t, rest := Field(original, path[0]), Fields(target)[path[0]], path[1..];
    forall i | 1 <= i <= |path|
      ensures Find(target, path[..i]) == Find(t, rest[..i - 1])
      ensures Has(t, rest[..i - 1]) || (Has(original, path[..i]) <==> Has(o, rest[..i - 1]))
    {
      PrefixStep(path, i);
      if i >= 2 { FindInField(original, path[..i]); }
    }
    if Untouched(original, target, path) {
      forall i | 0 <= i <= |rest|
        ensures !HasLeaf(t, rest[..i]) && (Has(o, rest[..i]) ==> Has(t, rest[..i]))
      {
        assert Find(target, path[..i + 1]) == Find(t, rest[..i]);
      }
    }
  }

  lemma UntouchedBelow(original: Json, target: Json, path: Path)
    requires target.Object? && path != [] && path[0] !in target.fields
    ensures Untouched(original, target, path) <==> path[0] !in Fields(original)
  {
    forall i | 1 <= i <= |path|
      ensures !Has(target, path[..i]) && (path[0] !in Fields(original) ==> !Has(original, path[..i]))
    {
      PrefixStep(path, i);
    }
    assert path[..1] == [path[0]] && path[..0] == [];
    HasMember(original, path[0]);
  }

  /** What was applied before and is no longer wanted is gone. */
  lemma DroppedPaths(original: Json, target: Json, live: Json, path: Path)
    requires Clean(target) && Has(original, path) && !Has(target, path)
    ensures !Has(Reconciled(original, target, live), path)
  {
    OtherPaths(original, target, live, path);
    assert path[..|path|] == path;
  }

  // ---- merging again ----

  lemma {:induction false} NothingToDelete(target: Json)
    ensures Deletions(target, target) == EMPTY
    decreases target
  {
    forall k | k in Fields(target) ensures Deletions(Field(target, k), Fields(target)[k]) == EMPTY {
      NothingToDelete(Fields(target)[k]);
    }
  }

  lemma {:induction false} NothingToChange(original: Json, target: Json, live: Json)
    requires Clean(target)
    ensures Changes(Reconciled(original, target, live), target) == EMPTY
    decreases target
  {
    var m := Reconciled(original, target, live);
    forall k | k in Fields(target) ensures Changes(Field(m, k), Fields(target)[k]) == EMPTY {
      NothingToChange(Field(original, k), Fields(target)[k], Field(live, k));
    }
  }

  /** Merging again with what was just recorded finds nothing to do: the patch is exactly empty. */
  lemma RemergeFindsNothing(original: Json, target: Json, live: Json)
    requires target.Object? && Clean(target) && live.Object?
    ensures var m := Merge(original, target, live);
            Patch(target, target, m) == EMPTY && Merge(target, target, m) == m
  {
    MergeIsReconciled(original, target, live);
    NothingToDelete(target);
    NothingToChange(original, target, live);
  }

  /** A fresh object already is what is wanted. */
  lemma MergeFresh(target: Json)
    requires target.Object? && Clean(target)
    ensures Merge(EMPTY, target, target) == target
  {
    MergeIsReconciled(EMPTY, target, target);
    ReconciledSelf(EMPTY, target);
  }

  lemma {:induction false} ReconciledSelf(original: Json, target: Json)
    ensures Reconciled(original, target, target) == target
    decreases target
  {
    if target.Object? {
      forall k | k in target.fields
        ensures Reconciled(Field(original, k), target.fields[k], target.fields[k]) == target.fields[k]
      {
        ReconciledSelf(Field(original, k), target.fields[k]);
      }
      assert Reconciled(original, target, target).fields == target.fields;
    }
  }

  // ---- runs ----

  /** The live specification after merging `targets` one after the other; `original` was recorded before them. */
  function MergeRun(original: Json, targets: seq<Spec>, live: Json): (r: Json)
    requires live.Object?
    ensures r.Object?
  {
    if targets == [] then live
    else
      var i := |targets| - 1;
      Merge(([original] + targets)[i], targets[i], MergeRun(original, targets[..i], live))
  }

  lemma MergeRunStep(original: Json, targets: seq<Spec>, target: Spec, live: Json)
    requires live.Object?
    ensures MergeRun(original, targets + [target], live)
         == Merge(([original] + targets)[|targets|], target, MergeRun(original, targets, live))
  {
    var all, i := targets + [target], |targets|;
    assert all[..i] == targets && all[i] == target;
    assert ([original] + all)[i] == ([original] + targets)[i];
    assert MergeRun(original, all, live) == Merge(([original] + all)[i], all[i], MergeRun(original, all[..i], live));
  }

  /** In a run without foreign edits nothing the operator ever wanted outlives its wish for it. */
  lemma {:induction false} NoLeftovers(original: Json, targets: seq<Spec>, live: Json, i: nat, path: Path)
    requires live.Object? && i <= |targets| != 0
    requires Has(([original] + targets)[i], path) && !Has(targets[|targets| - 1], path)
    ensures !Has(MergeRun(original, targets, live), path)
    decreases |targets|
  {
    var n := |targets| - 1;
    var last := ([original] + targets)[n];
    var before := MergeRun(original, targets[..n], live);
    if !Has(last, path) {
      assert [original] + targets[..n] == ([original] + targets)[..n + 1];
      NoLeftovers(original, targets[..n], live, i, path);
    }
    StaysGone(last, targets[n], before, path);
  }

  /** What is not wanted, and was recorded or already gone, is gone. */
  lemma StaysGone(original: Json, target: Spec, live: Json, path: Path)
    requires live.Object? && !Has(target, path) && (Has(original, path) || !Has(live, path))
    ensures !Has(Merge(original, target, live), path)
  {
    MergeIsReconciled(original, target, live);
    if Has(original, path) { DroppedPaths(original, target, live, path); }
    OtherPaths(original, target, live, path);
  }
}
