/**
 * The structural merge of two declarations of the same render kit
 * (`RenderKit.merge`), which the dispenser calls when a later document
 * declares a render kit id that is already known. RenderKit.java is not part
 * of this model; the rule below is the intended one for that method: an
 * incoming implementation class replaces the stored one, and each incoming
 * renderer replaces, in place, the stored renderer with the same
 * (component family, renderer type), or is appended when there is none.
 */
module RenderKitMerge {
  import opened Wrappers
  import opened FacesConfigElements

  type RendererKey = (string, string)

  function KeyOf(r: Renderer): RendererKey
  {
    (r.componentFamily, r.rendererType)
  }

  /** The set of (family, type) keys present in rs. */
  function Keys(rs: seq<Renderer>): set<RendererKey>
  {
    set i | 0 <= i < |rs| :: KeyOf(rs[i])
  }

  /** No two renderers of rs share a (family, type) key. */
  predicate UniqueKeys(rs: seq<Renderer>)
  {
    forall i, j :: 0 <= i < j < |rs| ==> KeyOf(rs[i]) != KeyOf(rs[j])
  }

  /** The position of the first renderer with key k, or -1 when there is none. */
  function FindRenderer(rs: seq<Renderer>, k: RendererKey): (i: int)
    ensures -1 <= i < |rs|
    ensures i == -1 <==> k !in Keys(rs)
    ensures 0 <= i ==> KeyOf(rs[i]) == k && forall j :: 0 <= j < i ==> KeyOf(rs[j]) != k
  {
    if rs == [] then -1
    else if KeyOf(rs[0]) == k then 0
    else
      var i := FindRenderer(rs[1..], k);
      assert Keys(rs) == {KeyOf(rs[0])} + Keys(rs[1..]) by {
        forall x | x in Keys(rs) ensures x in {KeyOf(rs[0])} + Keys(rs[1..]) {
          var j :| 0 <= j < |rs| && KeyOf(rs[j]) == x;
          if j > 0 { assert rs[1..][j - 1] == rs[j]; }
        }
        forall x | x in Keys(rs[1..]) ensures x in Keys(rs) {
          var j :| 0 <= j < |rs[1..]| && KeyOf(rs[1..][j]) == x;
          assert rs[j + 1] == rs[1..][j];
        }
      }
      if i == -1 then -1 else i + 1
  }

  /**
   * One incoming renderer: it replaces the first stored renderer with its key,
   * keeping that position, or is appended when no stored renderer has its key.
   */
  function PutRenderer(rs: seq<Renderer>, r: Renderer): (result: seq<Renderer>)
    ensures KeyOf(r) in Keys(rs) ==> result == rs[FindRenderer(rs, KeyOf(r)) := r]
    ensures KeyOf(r) in Keys(rs) ==> |result| == |rs| && r in result
    ensures KeyOf(r) !in Keys(rs) ==> result == rs + [r]
    ensures forall i :: 0 <= i < |rs| && KeyOf(rs[i]) != KeyOf(r) ==> result[i] == rs[i]
    ensures Keys(result) == Keys(rs) + {KeyOf(r)}
  {
    var i := FindRenderer(rs, KeyOf(r));
    if i == -1 then
      var result := rs + [r];
      assert Keys(result) == Keys(rs) + {KeyOf(r)} by {
        assert result[|rs|] == r;
        forall x | x in Keys(result) ensures x in Keys(rs) + {KeyOf(r)} {
          var j :| 0 <= j < |result| && KeyOf(result[j]) == x;
          if j < |rs| { assert result[j] == rs[j]; }
        }
        forall x | x in Keys(rs) ensures x in Keys(result) {
          var j :| 0 <= j < |rs| && KeyOf(rs[j]) == x;
          assert result[j] == rs[j];
        }
      }
      result
    else
      var result := rs[i := r];
      assert Keys(result) == Keys(rs) + {KeyOf(r)} by {
        assert result[i] == r;
        forall x | x in Keys(result) ensures x in Keys(rs) + {KeyOf(r)} {
          var j :| 0 <= j < |result| && KeyOf(result[j]) == x;
          if j != i { assert result[j] == rs[j]; }
        }
        forall x | x in Keys(rs) ensures x in Keys(result) {
          var j :| 0 <= j < |rs| && KeyOf(rs[j]) == x;
          if j != i { assert result[j] == rs[j]; } else { assert KeyOf(result[i]) == x; }
        }
      }
      result
  }

  /** Every incoming renderer, in order, put into the stored list. */
  function MergeRenderers(rs: seq<Renderer>, incoming: seq<Renderer>): seq<Renderer>
  {
    if incoming == [] then rs
    else PutRenderer(MergeRenderers(rs, incoming[..|incoming| - 1]), incoming[|incoming| - 1])
  }

  /** `existing.merge(incoming)`: the id stays, the class and renderers are merged. */
  function MergeRenderKit(existing: RenderKit, incoming: RenderKit): (merged: RenderKit)
    ensures merged.id == existing.id
    ensures merged.renderKitClass == if incoming.renderKitClass.Some? then incoming.renderKitClass else existing.renderKitClass
  {
    existing.(
      renderKitClass := if incoming.renderKitClass.Some? then incoming.renderKitClass else existing.renderKitClass,
      renderers := MergeRenderers(existing.renderers, incoming.renderers))
  }

  /** Putting a renderer keeps a duplicate-free renderer list duplicate-free. */
  lemma PutRendererUnique(rs: seq<Renderer>, r: Renderer)
    requires UniqueKeys(rs)
    ensures UniqueKeys(PutRenderer(rs, r))
  {
    var result := PutRenderer(rs, r);
    if KeyOf(r) in Keys(rs) {
      var i := FindRenderer(rs, KeyOf(r));
      assert result == rs[i := r];
    } else {
      forall i | 0 <= i < |rs| ensures KeyOf(result[i]) != KeyOf(result[|rs|]) {
        assert result[i] == rs[i];
        assert KeyOf(rs[i]) in Keys(rs);
      }
    }
  }

  /** The merged renderers carry exactly the keys of both lists, and stay duplicate-free. */
  lemma {:induction false} MergeRenderersKeys(rs: seq<Renderer>, incoming: seq<Renderer>)
    ensures Keys(MergeRenderers(rs, incoming)) == Keys(rs) + Keys(incoming)
    ensures UniqueKeys(rs) ==> UniqueKeys(MergeRenderers(rs, incoming))
  {
    if incoming != [] {
      var n := |incoming| - 1;
      MergeRenderersKeys(rs, incoming[..n]);
      if UniqueKeys(rs) {
        PutRendererUnique(MergeRenderers(rs, incoming[..n]), incoming[n]);
      }
      KeysSnoc(incoming);
    }
  }

  /** The keys of a non-empty list: those of all but its last renderer, plus the last one's. */
  lemma KeysSnoc(rs: seq<Renderer>)
    requires rs != []
    ensures Keys(rs) == Keys(rs[..|rs| - 1]) + {KeyOf(rs[|rs| - 1])}
  {
    var n := |rs| - 1;
    forall x | x in Keys(rs) ensures x in Keys(rs[..n]) + {KeyOf(rs[n])} {
      var j :| 0 <= j < |rs| && KeyOf(rs[j]) == x;
      if j < n { assert rs[..n][j] == rs[j]; }
    }
    forall x | x in Keys(rs[..n]) ensures x in Keys(rs) {
      var j :| 0 <= j < n && KeyOf(rs[..n][j]) == x;
      assert rs[j] == rs[..n][j];
    }
  }

  /**
   * The merged kit's renderers: those of the stored kit merged with the
   * incoming ones, carrying the keys of both and duplicate-free when the
   * stored list is.
   */
  lemma MergeRenderKitRenderers(existing: RenderKit, incoming: RenderKit)
    ensures MergeRenderKit(existing, incoming).renderers == MergeRenderers(existing.renderers, incoming.renderers)
    ensures Keys(MergeRenderKit(existing, incoming).renderers) == Keys(existing.renderers) + Keys(incoming.renderers)
    ensures UniqueKeys(existing.renderers) ==> UniqueKeys(MergeRenderKit(existing, incoming).renderers)
  {
    MergeRenderersKeys(existing.renderers, incoming.renderers);
  }

  /**
   * A stored renderer whose key no incoming renderer has is kept, at the same
   * position: a later document never discards unrelated renderers.
   */
  lemma {:induction false} MergeRenderersKeepsOthers(rs: seq<Renderer>, incoming: seq<Renderer>, i: nat)
    requires i < |rs| && KeyOf(rs[i]) !in Keys(incoming)
    ensures |MergeRenderers(rs, incoming)| >= |rs|
    ensures MergeRenderers(rs, incoming)[i] == rs[i]
  {
    if incoming != [] {
      var n := |incoming| - 1;
      forall j | 0 <= j < n ensures KeyOf(incoming[..n][j]) != KeyOf(rs[i]) {
        assert incoming[..n][j] == incoming[j];
        assert KeyOf(incoming[j]) in Keys(incoming);
      }
      MergeRenderersKeepsOthers(rs, incoming[..n], i);
      assert KeyOf(incoming[n]) in Keys(incoming);
    }
  }

  /**
   * The last incoming renderer with a given key is the one the merged list
   * holds for that key: the later declaration has authority.
   */
  lemma {:induction false} MergeRenderersLastWins(rs: seq<Renderer>, incoming: seq<Renderer>, j: nat)
    requires j < |incoming|
    requires forall i :: j < i < |incoming| ==> KeyOf(incoming[i]) != KeyOf(incoming[j])
    ensures incoming[j] in MergeRenderers(rs, incoming)
  {
    var n := |incoming| - 1;
    MergeRenderersKeys(rs, incoming[..n]);
    var prev := MergeRenderers(rs, incoming[..n]);
    if j < n {
      MergeRenderersLastWins(rs, incoming[..n], j);
      var p :| 0 <= p < |prev| && prev[p] == incoming[j];
      assert KeyOf(prev[p]) != KeyOf(incoming[n]);
      assert PutRenderer(prev, incoming[n])[p] == incoming[j];
    }
  }

  /**
   * Two declarations of a render kit with one renderer each, under the same
   * (family, type): the merged kit holds just the later renderer.
   */
  lemma SameRendererReplaced(existing: RenderKit, incoming: RenderKit, r1: Renderer, r2: Renderer)
    requires existing.renderers == [r1] && incoming.renderers == [r2]
    requires KeyOf(r1) == KeyOf(r2)
    ensures MergeRenderKit(existing, incoming).renderers == [r2]
  {
    assert incoming.renderers[..0] == [];
    assert MergeRenderers([r1], [r2]) == PutRenderer([r1], r2);
    KeysOne(r1);
    var merged := PutRenderer([r1], r2);
    assert |merged| == 1 && r2 in merged;
  }

  /**
   * Two declarations of a render kit whose renderers have different keys:
   * the merged kit holds both, the earlier one first.
   */
  lemma DisjointRenderersKept(existing: RenderKit, incoming: RenderKit, r1: Renderer, r2: Renderer)
    requires existing.renderers == [r1] && incoming.renderers == [r2]
    requires KeyOf(r1) != KeyOf(r2)
    ensures MergeRenderKit(existing, incoming).renderers == [r1, r2]
  {
    assert incoming.renderers[..0] == [];
    assert MergeRenderers([r1], [r2]) == PutRenderer([r1], r2);
    KeysOne(r1);
    assert PutRenderer([r1], r2) == [r1] + [r2];
  }

  lemma KeysOne(r: Renderer)
    ensures Keys([r]) == {KeyOf(r)}
  {
    assert [r][0] == r;
  }
}
