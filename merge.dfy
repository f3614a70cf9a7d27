/** The recursive configuration merge `_deep_merge` (app/__init__.py:68-76). */
module ConfigMerge {
  import opened Values

  /** `override or {}`: an absent (None) or empty override is the empty mapping. */
  function OrEmpty(over: Option<Tree>): Tree
  {
    if over.Some? then over.value else map[]
  }

  /** Whether a key holds a mapping on both sides, the one case that recurses. */
  predicate BothMappings(base: Tree, over: Tree, k: string)
  {
    k in base && k in over && base[k].VMap? && over[k].VMap?
  }

  /** The merge as a value: every key of either side; a key held as a mapping
      on both sides is merged recursively, any other key of the override takes
      the override's value verbatim, and the remaining keys keep the base's. */
  function Merge(base: Tree, over: Tree): Tree
    decreases VMap(over)
  {
    map k | k in base.Keys + over.Keys ::
      if k !in over then base[k]
      else if BothMappings(base, over, k) then VMap(Merge(base[k].entries, over[k].entries))
      else over[k]
  }

  /** The merge as the source runs it: start from a copy of the base and walk
      the override's keys in any order, assigning into the copy. */
  method DeepMerge(base: Tree, over: Option<Tree>) returns (result: Tree)
    ensures result == Merge(base, OrEmpty(over))
    decreases VMap(OrEmpty(over))
  {
    var o := OrEmpty(over);
    result := base;
    var todo := o.Keys;
    ghost var done: set<string> := {};
    while todo != {}
      invariant todo !! done && todo + done == o.Keys
      invariant result.Keys == base.Keys + done
      invariant forall k :: k in done ==> result[k] == Merge(base, o)[k]
      invariant forall k :: k in base && k !in done ==> result[k] == base[k]
      decreases todo
    {
      var k :| k in todo;
      var v := o[k];
      if v.VMap? && k in result && result[k].VMap? {
        var sub := DeepMerge(result[k].entries, Some(v.entries));
        result := result[k := VMap(sub)];
      } else {
        result := result[k := v];
      }
      todo := todo - {k};
      done := done + {k};
    }
  }

  /** The merged keys are exactly the union of both sides' keys. */
  lemma MergeKeys(base: Tree, over: Tree)
    ensures Merge(base, over).Keys == base.Keys + over.Keys
  {
  }

  /** A key only the base holds keeps the base's value unchanged. */
  lemma MergeKeepsBaseOnly(base: Tree, over: Tree, k: string)
    requires k in base && k !in over
    ensures k in Merge(base, over) && Merge(base, over)[k] == base[k]
  {
  }

  /** Unless both sides hold a mapping, the override's value wins verbatim,
      even when that changes the value's kind (a mapping replaced by a scalar,
      a scalar by a mapping, a list replaced whole). */
  lemma MergeOverrideWins(base: Tree, over: Tree, k: string)
    requires k in over && !(k in base && base[k].VMap? && over[k].VMap?)
    ensures k in Merge(base, over) && Merge(base, over)[k] == over[k]
  {
  }

  /** Where both sides hold a mapping, the result holds their merge. */
  lemma MergeRecurses(base: Tree, over: Tree, k: string)
    requires k in base && k in over && base[k].VMap? && over[k].VMap?
    ensures k in Merge(base, over)
    ensures Merge(base, over)[k] == VMap(Merge(base[k].entries, over[k].entries))
  {
  }

  /** Merging an empty (or absent) override gives back the base. */
  lemma MergeEmptyOverride(base: Tree)
    ensures Merge(base, map[]) == base
    ensures Merge(base, OrEmpty(None)) == base
  {
  }

  /** Merging onto an empty base gives back the override. */
  lemma MergeEmptyBase(over: Tree)
    ensures Merge(map[], over) == over
  {
  }

  /** Merging a tree with itself gives it back, at every depth. */
  lemma {:induction false} MergeSelf(m: Tree)
    ensures Merge(m, m) == m
    decreases VMap(m)
  {
    forall k | k in m && m[k].VMap?
      ensures Merge(m[k].entries, m[k].entries) == m[k].entries
    {
      MergeSelf(m[k].entries);
    }
  }

  /** Applying the same override a second time changes nothing: the override
      already wins everywhere it speaks. */
  lemma {:induction false} MergeOverrideTwice(base: Tree, over: Tree)
    ensures Merge(Merge(base, over), over) == Merge(base, over)
    decreases VMap(over)
  {
    var r := Merge(base, over);
    forall k | k in over && over[k].VMap?
      ensures Merge(r, over)[k] == r[k]
    {
      if BothMappings(base, over, k) {
        MergeOverrideTwice(base[k].entries, over[k].entries);
      } else {
        MergeSelf(over[k].entries);
      }
    }
  }

  /** Merging is not associative: a scalar in the middle tree cuts off the
      first tree's nested mapping in one grouping but not in the other. */
  lemma MergeNotAssociative()
    ensures
      var a := map["k" := VMap(map["p" := VInt(1)])];
      var b := map["k" := VInt(1)];
      var c := map["k" := VMap(map["q" := VInt(2)])];
      Merge(Merge(a, b), c) != Merge(a, Merge(b, c))
  {
    var a := map["k" := VMap(map["p" := VInt(1)])];
    var b := map["k" := VInt(1)];
    var c := map["k" := VMap(map["q" := VInt(2)])];
    assert Merge(a, b) == b;
    assert Merge(b, c) == c;
    assert Merge(Merge(a, b), c)["k"] == VMap(map["q" := VInt(2)]);
    assert "p" in Merge(a, Merge(b, c))["k"].entries;
  }
}
