/**
 * Precedence of the assembled composite. The lookup below is the one of
 * Spring's `CompositePropertySource.getProperty` (first source holding the
 * key wins); that class is not part of this model, so this module states
 * it as an assumption and derives from it that later layers override
 * earlier ones key by key.
 */
module Precedence {
  import opened Wrappers
  import opened Layers

  /** First-match lookup over the composite's sources, front first
      (assumed behaviour of Spring's composite). */
  function GetProperty(sources: seq<Layer>, key: string): (v: Option<string>)
    ensures v.Some? <==> exists i :: 0 <= i < |sources| && key in sources[i]
    ensures v.Some? ==>
      (exists i :: 0 <= i < |sources| && key in sources[i] &&
         v.value == sources[i][key] && (forall j :: 0 <= j < i ==> key !in sources[j]))
  {
    if sources == [] then None
    else if key in sources[0] then Some(sources[0][key])
    else
      var v := GetProperty(sources[1..], key);
      assert forall i :: 1 <= i < |sources| ==> sources[i] == sources[1..][i - 1];
      v
  }

  /** Reference merge of layers taken in request order: each later layer
      overrides the keys it shares with the earlier ones. */
  function Merge(layers: seq<Layer>): (m: Layer)
    ensures m.Keys == set i, k | 0 <= i < |layers| && k in layers[i] :: k
  {
    if layers == [] then map[]
    else
      var init := Merge(layers[..|layers| - 1]);
      assert forall i :: 0 <= i < |layers| - 1 ==> layers[i] == layers[..|layers| - 1][i];
      init + layers[|layers| - 1]
  }

  /** Each key of the merge takes its value from layer `j`, the last
      layer holding it. */
  lemma {:induction false} MergeLastWins(layers: seq<Layer>, key: string) returns (j: nat)
    requires key in Merge(layers)
    ensures j < |layers| && key in layers[j] && Merge(layers)[key] == layers[j][key]
    ensures forall i :: j < i < |layers| ==> key !in layers[i]
  {
    var init, last := layers[..|layers| - 1], layers[|layers| - 1];
    if key in last {
      j := |layers| - 1;
    } else {
      assert Merge(layers) == Merge(init) + last;
      j := MergeLastWins(init, key);
      assert layers[j] == init[j];
      forall i | j < i < |layers| ensures key !in layers[i] {
        if i < |layers| - 1 {
          assert layers[i] == init[i];
        }
      }
    }
  }

  /** Looking a key up by first match in the reversed layers gives the same
      answer as the last-wins merge of the layers in request order. */
  lemma {:induction false} FirstMatchOfReversedIsMerge(layers: seq<Layer>, key: string)
    ensures GetProperty(Reverse(layers), key)
         == if key in Merge(layers) then Some(Merge(layers)[key]) else None
  {
    if layers != [] {
      var init, last := layers[..|layers| - 1], layers[|layers| - 1];
      assert layers == init + [last];
      ReverseSnoc(init, last);
      FirstMatchOfReversedIsMerge(init, key);
      assert ([last] + Reverse(init))[1..] == Reverse(init);
    }
  }

  /** With a base layer {a: 1, b: 1} and a profile layer {b: 2, c: 2}, the
      composite resolves to {a: 1, b: 2, c: 2}. */
  lemma MergeExample()
    ensures Merge([map["a" := "1", "b" := "1"], map["b" := "2", "c" := "2"]])
         == map["a" := "1", "b" := "2", "c" := "2"]
  {
    var base, overlay := map["a" := "1", "b" := "1"], map["b" := "2", "c" := "2"];
    assert [base, overlay][..1] == [base];
    assert [base][..0] == [];
  }
}
