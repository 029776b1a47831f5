/** The colour table built by the effect in PalletVisualization.js: one entry per
    box of the selected pallet, keyed by the box key, holding a random colour.
    The random draws are an input sequence consumed in loop order. */
module ColourTable {
  import opened Packing
  import opened BoxKeys
  import opened Colours

  /** pallets[selectedPalletIndex]?.layers: no layers when the index names no pallet. */
  function SelectedLayers(pallets: seq<Pallet>, index: int): (layers: seq<Layer>)
    ensures 0 <= index < |pallets| ==> layers == pallets[index].layers
    ensures !(0 <= index < |pallets|) ==> layers == []
  {
    if 0 <= index < |pallets| then pallets[index].layers else []
  }

  /** One box of a pallet together with its layer index and its position in the layer. */
  datatype Slot = Slot(layerIndex: int, index: nat, box: Box)

  function LayerSlots(layer: Layer): (r: seq<Slot>)
    ensures |r| == |layer.boxes|
  {
    seq(|layer.boxes|, i requires 0 <= i < |layer.boxes| => Slot(layer.layerIndex, i, layer.boxes[i]))
  }

  /** Every box of the layers, layer by layer and box by box: the order in which both
      the colour effect and the scene visit them. */
  function Slots(layers: seq<Layer>): (slots: seq<Slot>)
    ensures |slots| == BoxCount(layers)
  {
    if |layers| == 0 then [] else Slots(layers[..|layers| - 1]) + LayerSlots(layers[|layers| - 1])
  }

  /** The number of boxes over all layers. */
  function BoxCount(layers: seq<Layer>): nat
  {
    if |layers| == 0 then 0 else BoxCount(layers[..|layers| - 1]) + |layers[|layers| - 1].boxes|
  }

  function KeyOf(s: Slot): string
  {
    BoxKey(s.layerIndex, s.index)
  }

  /** The set of keys `${layer.layer_index}_${i}` over all layers and 0 <= i < |layer.boxes|. */
  function KeySet(layers: seq<Layer>): (keys: set<string>)
    ensures forall key :: key in keys ==> NamesABox(layers, key)
  {
    var keys := set k, i | 0 <= k < |layers| && 0 <= i < |layers[k].boxes| :: BoxKey(layers[k].layerIndex, i);
    assert forall key :: key in keys ==> NamesABox(layers, key);
    keys
  }

  /** `key` splits at its first separator into the index of some layer and a
      position among that layer's boxes. */
  predicate NamesABox(layers: seq<Layer>, key: string)
  {
    var p := SeparatorPosition(key);
    p < |key| &&
    exists k :: 0 <= k < |layers| && ParseInt(key[..p]) == layers[k].layerIndex &&
                0 <= ParseNat(key[p + 1..]) < |layers[k].boxes|
  }

  predicate DistinctLayerIndices(layers: seq<Layer>)
  {
    forall a, b :: 0 <= a < b < |layers| ==> layers[a].layerIndex != layers[b].layerIndex
  }

  predicate ValidDraws(draws: seq<int>)
  {
    forall k :: 0 <= k < |draws| ==> 0 <= draws[k] < DrawBound
  }

  /** The colour strings of the draws, in order. */
  function DrawnColours(draws: seq<int>): (cs: seq<string>)
    requires ValidDraws(draws)
    ensures |cs| == |draws|
  {
    seq(|draws|, k requires 0 <= k < |draws| => RandomColour(draws[k]))
  }

  /** The keys of the slots, in order. */
  function SlotKeys(slots: seq<Slot>): (keys: seq<string>)
    ensures |keys| == |slots|
  {
    seq(|slots|, a requires 0 <= a < |slots| => KeyOf(slots[a]))
  }

  /** The dictionary after writing keys[k] := colours[k] for k = 0, 1, ... in order;
      a later write of an equal key wins. */
  function Fill(keys: seq<string>, colours: seq<string>): (m: map<string, string>)
    requires |keys| <= |colours|
    ensures |m| <= |keys|
    ensures |keys| > 0 ==> keys[|keys| - 1] in m && m[keys[|keys| - 1]] == colours[|keys| - 1]
  {
    if |keys| == 0 then map[]
    else Fill(keys[..|keys| - 1], colours)[keys[|keys| - 1] := colours[|keys| - 1]]
  }

  /** The dictionary the colour effect builds from the boxes it visits and the draws. */
  function ColourMap(slots: seq<Slot>, draws: seq<int>): (m: map<string, string>)
    requires ValidDraws(draws) && |slots| <= |draws|
    ensures |m| <= |slots|
    ensures |slots| > 0 ==> KeyOf(slots[|slots| - 1]) in m &&
                            m[KeyOf(slots[|slots| - 1])] == RandomColour(draws[|slots| - 1])
  {
    Fill(SlotKeys(slots), DrawnColours(draws))
  }

  lemma FillSnoc(keys: seq<string>, key: string, colours: seq<string>)
    requires |keys| < |colours|
    ensures Fill(keys + [key], colours) == Fill(keys, colours)[key := colours[|keys|]]
  {
    assert (keys + [key])[..|keys|] == keys;
  }

  /** Visiting one more slot writes one more entry. */
  lemma ColourMapSnoc(slots: seq<Slot>, s: Slot, draws: seq<int>)
    requires ValidDraws(draws) && |slots| < |draws|
    ensures ColourMap(slots + [s], draws) == ColourMap(slots, draws)[KeyOf(s) := RandomColour(draws[|slots|])]
  {
    assert SlotKeys(slots + [s]) == SlotKeys(slots) + [KeyOf(s)];
    FillSnoc(SlotKeys(slots), KeyOf(s), DrawnColours(draws));
  }

  lemma LayerSlotsStep(layer: Layer, i: nat)
    requires i < |layer.boxes|
    ensures LayerSlots(layer)[..i + 1] == LayerSlots(layer)[..i] + [Slot(layer.layerIndex, i, layer.boxes[i])]
  {
    var l := LayerSlots(layer);
    assert l[i] == Slot(layer.layerIndex, i, layer.boxes[i]);
    assert l[..i + 1] == l[..i] + [l[i]];
  }

  /** Slots of a prefix of the layers are a prefix of the slots. */
  lemma {:induction false} SlotsPrefix(layers: seq<Layer>, j: nat)
    requires j <= |layers|
    ensures |Slots(layers[..j])| <= |Slots(layers)|
    ensures Slots(layers)[..|Slots(layers[..j])|] == Slots(layers[..j])
    decreases |layers|
  {
    if j == |layers| {
      assert layers[..j] == layers;
    } else {
      var init := layers[..|layers| - 1];
      assert init[..j] == layers[..j];
      SlotsPrefix(init, j);
    }
  }

  lemma SlotsStep(layers: seq<Layer>, j: nat)
    requires j < |layers|
    ensures Slots(layers[..j + 1]) == Slots(layers[..j]) + LayerSlots(layers[j])
  {
    assert layers[..j + 1][..j] == layers[..j];
  }

  /** Slot `s` comes from the layer at position `k`, as box number `s.index` of that layer. */
  predicate SlotFrom(layers: seq<Layer>, s: Slot, k: int)
  {
    0 <= k < |layers| && s.layerIndex == layers[k].layerIndex &&
    s.index < |layers[k].boxes| && s.box == layers[k].boxes[s.index]
  }

  lemma {:induction false} SlotsOrigin(layers: seq<Layer>, a: nat)
    requires a < |Slots(layers)|
    ensures exists k :: SlotFrom(layers, Slots(layers)[a], k)
    decreases |layers|
  {
    var init := layers[..|layers| - 1];
    var last := layers[|layers| - 1];
    if a < |Slots(init)| {
      SlotsOrigin(init, a);
      var k :| SlotFrom(init, Slots(init)[a], k);
      assert SlotFrom(layers, Slots(layers)[a], k);
    } else {
      assert SlotFrom(layers, Slots(layers)[a], |layers| - 1);
    }
  }

  lemma {:induction false} SlotsComplete(layers: seq<Layer>, k: nat, i: nat)
    requires k < |layers| && i < |layers[k].boxes|
    ensures Slot(layers[k].layerIndex, i, layers[k].boxes[i]) in Slots(layers)
    decreases |layers|
  {
    var init := layers[..|layers| - 1];
    if k < |layers| - 1 {
      SlotsComplete(init, k, i);
    } else {
      assert LayerSlots(layers[k])[i] == Slot(layers[k].layerIndex, i, layers[k].boxes[i]);
    }
  }

  /** The keys of the slots are exactly the key set of the layers. */
  lemma SlotKeysAreKeySet(layers: seq<Layer>)
    ensures forall key :: key in SlotKeys(Slots(layers)) <==> key in KeySet(layers)
  {
    var slots := Slots(layers);
    var keys := SlotKeys(slots);
    forall key | key in keys ensures key in KeySet(layers) {
      var a :| 0 <= a < |keys| && keys[a] == key;
      SlotsOrigin(layers, a);
      var k :| SlotFrom(layers, slots[a], k);
      assert key == BoxKey(layers[k].layerIndex, slots[a].index);
    }
    forall key | key in KeySet(layers) ensures key in keys {
      var k, i :| 0 <= k < |layers| && 0 <= i < |layers[k].boxes| && key == BoxKey(layers[k].layerIndex, i);
      SlotsComplete(layers, k, i);
      var a :| 0 <= a < |slots| && slots[a] == Slot(layers[k].layerIndex, i, layers[k].boxes[i]);
      assert keys[a] == key;
    }
  }

  lemma {:induction false} FillKeys(keys: seq<string>, colours: seq<string>)
    requires |keys| <= |colours|
    ensures forall key :: key in Fill(keys, colours) <==> key in keys
    decreases |keys|
  {
    var n := |keys|;
    if n > 0 {
      FillKeys(keys[..n - 1], colours);
      assert keys == keys[..n - 1] + [keys[n - 1]];
    }
  }

  lemma {:induction false} FillValues(keys: seq<string>, colours: seq<string>)
    requires |keys| <= |colours|
    ensures forall key :: key in Fill(keys, colours) ==> Fill(keys, colours)[key] in colours[..|keys|]
    decreases |keys|
  {
    var n := |keys|;
    if n > 0 {
      FillValues(keys[..n - 1], colours);
      assert colours[..n - 1] <= colours[..n];
    }
  }

  predicate Distinct(keys: seq<string>)
  {
    forall p, q :: 0 <= p < q < |keys| ==> keys[p] != keys[q]
  }

  lemma {:induction false} FillAt(keys: seq<string>, colours: seq<string>, a: nat)
    requires |keys| <= |colours|
    requires Distinct(keys)
    requires a < |keys|
    ensures keys[a] in Fill(keys, colours)
    ensures Fill(keys, colours)[keys[a]] == colours[a]
    decreases |keys|
  {
    var n := |keys|;
    if a < n - 1 {
      var init := keys[..n - 1];
      assert Distinct(init) by {
        forall p, q | 0 <= p < q < |init| ensures init[p] != init[q] {
          assert init[p] == keys[p] && init[q] == keys[q];
        }
      }
      FillAt(init, colours, a);
      assert init[a] == keys[a];
      assert keys[a] != keys[n - 1];
    }
  }

  /** The colour map has an entry for exactly the keys of the slots ... */
  lemma ColourMapKeys(slots: seq<Slot>, draws: seq<int>)
    requires ValidDraws(draws) && |slots| <= |draws|
    ensures forall key :: key in ColourMap(slots, draws) <==> key in SlotKeys(slots)
  {
    FillKeys(SlotKeys(slots), DrawnColours(draws));
  }

  /** ... and every entry is a colour string. */
  lemma ColourMapValues(slots: seq<Slot>, draws: seq<int>)
    requires ValidDraws(draws) && |slots| <= |draws|
    ensures forall key :: key in ColourMap(slots, draws) ==> IsColourString(ColourMap(slots, draws)[key])
  {
    var cs := DrawnColours(draws);
    FillValues(SlotKeys(slots), cs);
    forall key | key in ColourMap(slots, draws) ensures IsColourString(ColourMap(slots, draws)[key]) {
      var k :| 0 <= k < |slots| && cs[..|slots|][k] == ColourMap(slots, draws)[key];
      assert cs[k] == RandomColour(draws[k]);
    }
  }

  predicate DistinctKeys(slots: seq<Slot>)
  {
    forall p, q :: 0 <= p < q < |slots| ==> KeyOf(slots[p]) != KeyOf(slots[q])
  }

  /** With pairwise distinct keys no entry is overwritten: slot `a` keeps the colour of draw `a`. */
  lemma ColourMapAt(slots: seq<Slot>, draws: seq<int>, a: nat)
    requires ValidDraws(draws) && |slots| <= |draws|
    requires DistinctKeys(slots)
    requires a < |slots|
    ensures KeyOf(slots[a]) in ColourMap(slots, draws)
    ensures ColourMap(slots, draws)[KeyOf(slots[a])] == RandomColour(draws[a])
  {
    var keys := SlotKeys(slots);
    assert Distinct(keys) by {
      forall p, q | 0 <= p < q < |keys| ensures keys[p] != keys[q] {
        assert keys[p] == KeyOf(slots[p]) && keys[q] == KeyOf(slots[q]);
      }
    }
    FillAt(keys, DrawnColours(draws), a);
    assert keys[a] == KeyOf(slots[a]);
  }

  /** Rendering boxes of layers with distinct indices never share a key. */
  lemma SlotKeysDistinct(layers: seq<Layer>)
    requires DistinctLayerIndices(layers)
    ensures forall p, q :: 0 <= p < |Slots(layers)| && 0 <= q < |Slots(layers)| && p != q ==>
      KeyOf(Slots(layers)[p]) != KeyOf(Slots(layers)[q])
  {
    var slots := Slots(layers);
    forall p, q | 0 <= p < |slots| && 0 <= q < |slots| && p != q
      ensures KeyOf(slots[p]) != KeyOf(slots[q])
    {
      SlotPairsDistinct(layers, p, q);
      BoxKeyInjective(slots[p].layerIndex, slots[p].index, slots[q].layerIndex, slots[q].index);
    }
  }

  lemma {:induction false} SlotPairsDistinct(layers: seq<Layer>, p: nat, q: nat)
    requires DistinctLayerIndices(layers)
    requires p < |Slots(layers)| && q < |Slots(layers)| && p != q
    ensures Slots(layers)[p].layerIndex != Slots(layers)[q].layerIndex ||
            Slots(layers)[p].index != Slots(layers)[q].index
    decreases |layers|
  {
    var init := layers[..|layers| - 1];
    var n := |Slots(init)|;
    var last := layers[|layers| - 1];
    if p < n && q < n {
      SlotPairsDistinct(init, p, q);
    } else if p >= n && q >= n {
      assert Slots(layers)[p] == LayerSlots(last)[p - n];
      assert Slots(layers)[q] == LayerSlots(last)[q - n];
    } else {
      var a := if p < n then p else q;
      SlotsOrigin(init, a);
      var k :| SlotFrom(init, Slots(init)[a], k);
      assert layers[k] == init[k];
      assert Slots(layers)[a].layerIndex == layers[k].layerIndex != last.layerIndex;
    }
  }

  /** The colour table of the selected pallet: its keys are exactly the key set of the
      pallet's layers (none when the index names no pallet), every value is a colour
      string, and with distinct layer indices the n-th box visited keeps the n-th draw. */
  lemma ColourTableComplete(pallets: seq<Pallet>, index: int, draws: seq<int>)
    requires ValidDraws(draws) && |Slots(SelectedLayers(pallets, index))| <= |draws|
    ensures ColourMap(Slots(SelectedLayers(pallets, index)), draws).Keys == KeySet(SelectedLayers(pallets, index))
    ensures !(0 <= index < |pallets|) ==> ColourMap(Slots(SelectedLayers(pallets, index)), draws) == map[]
    ensures forall key :: key in ColourMap(Slots(SelectedLayers(pallets, index)), draws) ==>
      IsColourString(ColourMap(Slots(SelectedLayers(pallets, index)), draws)[key])
  {
    var layers := SelectedLayers(pallets, index);
    ColourMapKeys(Slots(layers), draws);
    SlotKeysAreKeySet(layers);
    assert ColourMap(Slots(layers), draws).Keys == KeySet(layers);
    ColourMapValues(Slots(layers), draws);
  }
}
