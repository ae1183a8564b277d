/**
 * The dispenser's render-kit table, an insertion-ordered map from render kit
 * id to the (merged) render kit: the ids in the order they were first seen,
 * and the entries.
 */
module RenderKitRegistry {
  import opened Wrappers
  import opened FacesConfigElements
  import opened RenderKitMerge

  /** The id of the built-in HTML render kit, used for a declaration without an id. */
  const HTML_BASIC_RENDER_KIT: string := "HTML_BASIC"

  datatype Registry = Registry(ids: seq<string>, kits: map<string, RenderKit>) {
    /** The key order lists every key exactly once. */
    ghost predicate Valid() {
      Distinct(ids) && kits.Keys == Elements(ids)
    }
  }

  ghost predicate Distinct(ids: seq<string>) {
    forall i, j :: 0 <= i < j < |ids| ==> ids[i] != ids[j]
  }

  function Elements(ids: seq<string>): set<string> {
    set i | 0 <= i < |ids| :: ids[i]
  }

  lemma ElementsSnoc(ids: seq<string>, id: string)
    ensures Elements(ids + [id]) == Elements(ids) + {id}
  {
    var all := ids + [id];
    forall x | x in Elements(all) ensures x in Elements(ids) + {id} {
      var i :| 0 <= i < |all| && all[i] == x;
      if i < |ids| { assert all[i] == ids[i]; }
    }
    forall x | x in Elements(ids) ensures x in Elements(all) {
      var i :| 0 <= i < |ids| && ids[i] == x;
      assert all[i] == ids[i];
    }
    assert all[|ids|] == id;
  }

  const Empty: Registry := Registry([], map[])

  /** The id a render-kit declaration is filed under. */
  function EffectiveId(rk: RenderKit): (id: string)
    ensures rk.id.None? ==> id == HTML_BASIC_RENDER_KIT
    ensures rk.id.Some? ==> id == rk.id.value
  {
    rk.id.GetOr(HTML_BASIC_RENDER_KIT)
  }

  /**
   * One declaration: a new id is stored as declared and appended to the key
   * order; a known id is merged into the stored kit and the order is kept.
   */
  function PutRenderKit(reg: Registry, rk: RenderKit): (r: Registry)
    requires reg.Valid()
    ensures r.Valid()
    ensures r.kits.Keys == reg.kits.Keys + {EffectiveId(rk)}
    ensures EffectiveId(rk) in reg.kits ==> r.ids == reg.ids && r.kits == reg.kits[EffectiveId(rk) := MergeRenderKit(reg.kits[EffectiveId(rk)], rk)]
    ensures EffectiveId(rk) !in reg.kits ==> r.ids == reg.ids + [EffectiveId(rk)] && r.kits == reg.kits[EffectiveId(rk) := rk]
  {
    var id := EffectiveId(rk);
    if id in reg.kits then
      Registry(reg.ids, reg.kits[id := MergeRenderKit(reg.kits[id], rk)])
    else
      ElementsSnoc(reg.ids, id);
      assert forall i :: 0 <= i < |reg.ids| ==> reg.ids[i] in Elements(reg.ids);
      Registry(reg.ids + [id], reg.kits[id := rk])
  }

  /** Every declaration of rks, in order. */
  function PutRenderKits(reg: Registry, rks: seq<RenderKit>): (r: Registry)
    requires reg.Valid()
    ensures r.Valid()
  {
    if rks == [] then reg else PutRenderKit(PutRenderKits(reg, rks[..|rks| - 1]), rks[|rks| - 1])
  }

  /** One more declaration of a prefix is filed. */
  lemma PutRenderKitsStep(reg: Registry, rks: seq<RenderKit>, i: nat)
    requires reg.Valid() && i < |rks|
    ensures PutRenderKits(reg, rks[..i + 1]) == PutRenderKit(PutRenderKits(reg, rks[..i]), rks[i])
  {
    assert rks[..i + 1][..i] == rks[..i];
  }

  /** The ids the declarations of rks are filed under. */
  function FiledIds(rks: seq<RenderKit>): set<string>
  {
    set i | 0 <= i < |rks| :: EffectiveId(rks[i])
  }

  lemma FiledIdsSnoc(rks: seq<RenderKit>, rk: RenderKit)
    ensures FiledIds(rks + [rk]) == FiledIds(rks) + {EffectiveId(rk)}
  {
    var all := rks + [rk];
    forall x | x in FiledIds(all) ensures x in FiledIds(rks) + {EffectiveId(rk)} {
      var i :| 0 <= i < |all| && EffectiveId(all[i]) == x;
      if i < |rks| { assert all[i] == rks[i]; }
    }
    forall x | x in FiledIds(rks) ensures x in FiledIds(all) {
      var i :| 0 <= i < |rks| && EffectiveId(rks[i]) == x;
      assert all[i] == rks[i];
    }
    assert all[|rks|] == rk;
  }

  /**
   * Filing never forgets or reorders: the old key order is a prefix of the
   * new one, and the known ids are the old ones plus the ids the new
   * declarations are filed under.
   */
  lemma {:induction false} PutRenderKitsKeys(reg: Registry, rks: seq<RenderKit>)
    requires reg.Valid()
    ensures reg.ids <= PutRenderKits(reg, rks).ids
    ensures PutRenderKits(reg, rks).kits.Keys == reg.kits.Keys + FiledIds(rks)
  {
    if rks != [] {
      var n := |rks| - 1;
      PutRenderKitsKeys(reg, rks[..n]);
      FiledIdsSnoc(rks[..n], rks[n]);
      assert rks[..n] + [rks[n]] == rks;
    }
  }

  /**
   * A stored kit is never replaced wholesale: a further declaration with the
   * same effective id is merged into it, and its key order is unchanged.
   */
  lemma KnownIdMerged(reg: Registry, rk: RenderKit)
    requires reg.Valid() && EffectiveId(rk) in reg.kits
    ensures PutRenderKit(reg, rk).ids == reg.ids
    ensures PutRenderKit(reg, rk).kits.Keys == reg.kits.Keys
    ensures PutRenderKit(reg, rk).kits[EffectiveId(rk)] == MergeRenderKit(reg.kits[EffectiveId(rk)], rk)
  {
  }

  /**
   * Two declarations without an id, in a row: both land in the single
   * HTML_BASIC entry, the second merged into the first.
   */
  lemma AnonymousKitsShareDefault(reg: Registry, a: RenderKit, b: RenderKit)
    requires reg.Valid() && HTML_BASIC_RENDER_KIT !in reg.kits
    requires a.id.None? && b.id.None?
    ensures PutRenderKits(reg, [a, b]).ids == reg.ids + [HTML_BASIC_RENDER_KIT]
    ensures PutRenderKits(reg, [a, b]).kits == reg.kits[HTML_BASIC_RENDER_KIT := MergeRenderKit(a, b)]
  {
    var first := PutRenderKit(reg, a);
    assert PutRenderKits(reg, [a]) == first by {
      assert [a][..0] == [];
    }
    assert [a, b][..1] == [a];
    assert first.kits == reg.kits[HTML_BASIC_RENDER_KIT := a];
    assert first.kits[HTML_BASIC_RENDER_KIT := MergeRenderKit(a, b)] == reg.kits[HTML_BASIC_RENDER_KIT := MergeRenderKit(a, b)];
  }

  /** Filing the declarations of `xs + ys` is filing those of xs and then those of ys. */
  lemma {:induction false} PutRenderKitsAppend(reg: Registry, xs: seq<RenderKit>, ys: seq<RenderKit>)
    requires reg.Valid()
    ensures PutRenderKits(reg, xs + ys) == PutRenderKits(PutRenderKits(reg, xs), ys)
  {
    if ys == [] {
      assert xs + ys == xs;
    } else {
      var n := |ys| - 1;
      assert (xs + ys)[..|xs + ys| - 1] == xs + ys[..n];
      assert (xs + ys)[|xs + ys| - 1] == ys[n];
      PutRenderKitsAppend(reg, xs, ys[..n]);
    }
  }
}
