/** The PalletVisualizer component of PalletVisualization.js: it holds the colour
    table and the selected box, and draws every box of the selected pallet as a
    descriptor (centre, extents, colour, edge style) instead of three.js objects. */
module Visualizer {
  import opened Packing
  import opened BoxKeys
  import opened Colours
  import opened ColourTable
  import CardGeometry

  datatype EdgeStyle = EdgeStyle(colour: string, lineWidth: nat)

  /** Edge material of a selected box (red, width 10) and of any other box (black, width 2). */
  const Highlight := EdgeStyle("red", 10)
  const Plain := EdgeStyle("black", 2)

  /** What a click stores: the box's attributes, its layer index and its key. */
  datatype Selection = Selection(box: Box, layerIndex: int, uniqueKey: string)

  /** Everything the scene hands to the renderer for one box. `colour` is the colour
      table's entry for the key, `None` when the table has none. */
  datatype BoxView = BoxView(
    key: string,
    layerIndex: int,
    box: Box,
    centre: Vec3,
    extents: Vec3,
    colour: Option<string>,
    edge: EdgeStyle)

  /** A box is highlighted when a box is selected and the stored key equals its key. */
  function IsSelected(selection: Option<Selection>, key: string): (selected: bool)
    ensures selection.None? ==> !selected
    ensures selection.Some? ==> (selected <==> key == selection.value.uniqueKey)
  {
    selection.Some? && selection.value.uniqueKey == key
  }

  /** The two edge styles are told apart by the selection alone. */
  function EdgeFor(selected: bool): (e: EdgeStyle)
    ensures e == Highlight <==> selected
    ensures e == Plain <==> !selected
  {
    if selected then Highlight else Plain
  }

  /** The descriptor of one box: BoxWithEdges draws it around the swapped midpoint of
      its card's first and last corners, with the swapped data extents, in the colour
      stored under its key, and with the red edge exactly when its key is the one stored
      by the last click. */
  function ViewOf(s: Slot, colours: map<string, string>, selection: Option<Selection>): (v: BoxView)
    ensures v.key == BoxKey(s.layerIndex, s.index) && v.layerIndex == s.layerIndex && v.box == s.box
    ensures v.centre == SwapYZ(Midpoint(CardGeometry.CardCorners(s.box)[0], CardGeometry.CardCorners(s.box)[7]))
    ensures v.extents == SwapYZ(CardGeometry.DataExtents(s.box))
    ensures v.colour.Some? <==> v.key in colours
    ensures v.colour.Some? ==> v.colour.value == colours[v.key]
    ensures v.edge == Highlight <==> selection.Some? && selection.value.uniqueKey == v.key
  {
    var key := KeyOf(s);
    BoxView(key, s.layerIndex, s.box,
            CardGeometry.RenderCentre(s.box), CardGeometry.RenderExtents(s.box),
            if key in colours then Some(colours[key]) else None,
            EdgeFor(IsSelected(selection, key)))
  }

  /** The boxes drawn for the given layers, in drawing order. */
  function SceneOf(layers: seq<Layer>, colours: map<string, string>, selection: Option<Selection>): (views: seq<BoxView>)
    ensures |views| == |Slots(layers)|
  {
    var slots := Slots(layers);
    seq(|slots|, a requires 0 <= a < |slots| => ViewOf(slots[a], colours, selection))
  }

  /** With distinct layer indices at most one drawn box is highlighted, whatever is selected. */
  lemma AtMostOneHighlighted(layers: seq<Layer>, colours: map<string, string>, selection: Option<Selection>)
    requires DistinctLayerIndices(layers)
    ensures var views := SceneOf(layers, colours, selection);
            forall p, q :: 0 <= p < |views| && 0 <= q < |views| && views[p].edge == Highlight && views[q].edge == Highlight
                           ==> p == q
  {
    SlotKeysDistinct(layers);
  }

  /** Selecting the box drawn at position `j` (as its click handler does) highlights
      exactly that box. */
  lemma ClickHighlightsExactlyThatBox(layers: seq<Layer>, colours: map<string, string>, j: nat)
    requires DistinctLayerIndices(layers)
    requires j < |Slots(layers)|
    ensures var v := SceneOf(layers, colours, None)[j];
            var views := SceneOf(layers, colours, Some(Selection(v.box, v.layerIndex, v.key)));
            forall p :: 0 <= p < |views| ==> (views[p].edge == Highlight <==> p == j)
  {
    SlotKeysDistinct(layers);
  }

  /** With no selection every box gets the plain black edge. */
  lemma NothingHighlightedWithoutSelection(layers: seq<Layer>, colours: map<string, string>)
    ensures forall v :: v in SceneOf(layers, colours, None) ==> v.edge == Plain
  {
  }

  /** After the colour effect every drawn box of the selected pallet finds a colour
      string under its key. */
  lemma SceneFullyColoured(layers: seq<Layer>, draws: seq<int>, selection: Option<Selection>)
    requires ValidDraws(draws) && |Slots(layers)| <= |draws|
    ensures forall v :: v in SceneOf(layers, ColourMap(Slots(layers), draws), selection) ==>
      v.colour.Some? && IsColourString(v.colour.value)
  {
    var slots := Slots(layers);
    var colours := ColourMap(slots, draws);
    var views := SceneOf(layers, colours, selection);
    ColourMapKeys(slots, draws);
    ColourMapValues(slots, draws);
    forall v | v in views ensures v.colour.Some? && IsColourString(v.colour.value) {
      var a :| 0 <= a < |views| && views[a] == v;
      assert SlotKeys(slots)[a] == KeyOf(slots[a]);
    }
  }

  /** With distinct layer indices, box number `a` in drawing order is drawn in the
      colour of draw number `a`. */
  lemma SceneColoursFollowDraws(layers: seq<Layer>, draws: seq<int>, selection: Option<Selection>)
    requires ValidDraws(draws) && |Slots(layers)| <= |draws|
    requires DistinctLayerIndices(layers)
    ensures forall a :: 0 <= a < |Slots(layers)| ==>
      SceneOf(layers, ColourMap(Slots(layers), draws), selection)[a].colour == Some(RandomColour(draws[a]))
  {
    var slots := Slots(layers);
    SlotKeysDistinct(layers);
    forall a | 0 <= a < |slots|
      ensures SceneOf(layers, ColourMap(slots, draws), selection)[a].colour == Some(RandomColour(draws[a]))
    {
      ColourMapAt(slots, draws, a);
    }
  }

  /** The body of the colour effect: `newColors` is filled by a loop over the layers
      of the selected pallet and, inside it, a loop over the boxes of each layer. */
  method BuildColours(pallets: seq<Pallet>, selectedPalletIndex: int, draws: seq<int>)
    returns (newColours: map<string, string>)
    requires ValidDraws(draws) && |Slots(SelectedLayers(pallets, selectedPalletIndex))| <= |draws|
    ensures newColours == ColourMap(Slots(SelectedLayers(pallets, selectedPalletIndex)), draws)
  {
    newColours := map[];
    if 0 <= selectedPalletIndex < |pallets| {
      var layers := pallets[selectedPalletIndex].layers;
      var j, used := 0, 0;
      assert layers[..0] == [];
      while j < |layers|
        invariant 0 <= j <= |layers|
        invariant used == |Slots(layers[..j])| <= |draws|
        invariant newColours == ColourMap(Slots(layers[..j]), draws)
      {
        SlotsStep(layers, j);
        SlotsPrefix(layers, j + 1);
        newColours, used := ColourLayer(newColours, Slots(layers[..j]), layers[j], draws, used);
        j := j + 1;
      }
      assert layers[..j] == layers;
    }
  }

  /** The inner loop: writes a colour for each box of `layer`, taking draws from
      position `used` on, after the slots `done` have been written. */
  method ColourLayer(colours: map<string, string>, ghost done: seq<Slot>, layer: Layer, draws: seq<int>, used: nat)
    returns (newColours: map<string, string>, nextUsed: nat)
    requires ValidDraws(draws) && used == |done| && |done| + |layer.boxes| <= |draws|
    requires colours == ColourMap(done, draws)
    ensures nextUsed == used + |layer.boxes|
    ensures newColours == ColourMap(done + LayerSlots(layer), draws)
  {
    newColours, nextUsed := colours, used;
    var i := 0;
    ghost var visited := done;
    assert done + LayerSlots(layer)[..0] == done;
    while i < |layer.boxes|
      invariant 0 <= i <= |layer.boxes|
      invariant nextUsed == |visited| == |done| + i
      invariant visited == done + LayerSlots(layer)[..i]
      invariant newColours == ColourMap(visited, draws)
    {
      ColourLayerStep(visited, done, layer, i, draws);
      ghost var slot := Slot(layer.layerIndex, i, layer.boxes[i]);
      newColours := newColours[BoxKey(layer.layerIndex, i) := RandomColour(draws[nextUsed])];
      visited := visited + [slot];
      nextUsed, i := nextUsed + 1, i + 1;
    }
    assert LayerSlots(layer)[..i] == LayerSlots(layer);
  }

  lemma ColourLayerStep(visited: seq<Slot>, done: seq<Slot>, layer: Layer, i: nat, draws: seq<int>)
    requires ValidDraws(draws) && i < |layer.boxes| && |visited| < |draws|
    requires visited == done + LayerSlots(layer)[..i]
    ensures visited + [Slot(layer.layerIndex, i, layer.boxes[i])] == done + LayerSlots(layer)[..i + 1]
    ensures ColourMap(visited + [Slot(layer.layerIndex, i, layer.boxes[i])], draws) ==
      ColourMap(visited, draws)[BoxKey(layer.layerIndex, i) := RandomColour(draws[|visited|])]
  {
    LayerSlotsStep(layer, i);
    ColourMapSnoc(visited, Slot(layer.layerIndex, i, layer.boxes[i]), draws);
  }

  /** What the detail card shows: the stored box, its layer index and its 8 corners. */
  datatype Card = Card(box: Box, layerIndex: int, corners: seq<Vec3>)

  class PalletVisualizer {
    var boxColours: map<string, string>
    var selectedBoxData: Option<Selection>

    constructor ()
      ensures boxColours == map[] && selectedBoxData == None
    {
      boxColours := map[];
      selectedBoxData := None;
    }

    /** The colour effect, run whenever the pallets or the selected index change: the
        table is rebuilt from scratch, one draw per box, and the selection is kept. */
    method RefreshColours(pallets: seq<Pallet>, selectedPalletIndex: int, draws: seq<int>)
      requires ValidDraws(draws) && |Slots(SelectedLayers(pallets, selectedPalletIndex))| <= |draws|
      modifies this
      ensures boxColours == ColourMap(Slots(SelectedLayers(pallets, selectedPalletIndex)), draws)
      ensures selectedBoxData == old(selectedBoxData)
    {
      var newColours := BuildColours(pallets, selectedPalletIndex, draws);
      boxColours := newColours;
    }

    /** handleBoxClick: stores the box with its layer index and key; the colours stay. */
    method HandleBoxClick(box: Box, layerIndex: int, uniqueKey: string)
      modifies this
      ensures selectedBoxData == Some(Selection(box, layerIndex, uniqueKey))
      ensures boxColours == old(boxColours)
    {
      selectedBoxData := Some(Selection(box, layerIndex, uniqueKey));
    }

    /** The card's close button. */
    method CloseCard()
      modifies this
      ensures selectedBoxData == None
      ensures boxColours == old(boxColours)
    {
      selectedBoxData := None;
    }

    /** The boxes drawn for the selected pallet. */
    function Scene(pallets: seq<Pallet>, selectedPalletIndex: int): (views: seq<BoxView>)
      reads this
      ensures |views| == BoxCount(SelectedLayers(pallets, selectedPalletIndex))
      ensures selectedBoxData.None? ==> forall v :: v in views ==> v.edge == Plain
    {
      NothingHighlightedWithoutSelection(SelectedLayers(pallets, selectedPalletIndex), boxColours);
      SceneOf(SelectedLayers(pallets, selectedPalletIndex), boxColours, selectedBoxData)
    }

    /** The detail card, shown exactly when a box is selected. */
    function DetailCard(): (c: Option<Card>)
      reads this
      ensures c.Some? <==> selectedBoxData.Some?
      ensures c.Some? ==> c.value.box == selectedBoxData.value.box &&
                          c.value.layerIndex == selectedBoxData.value.layerIndex &&
                          c.value.corners == CardGeometry.CardCorners(selectedBoxData.value.box)
    {
      match selectedBoxData
      case None => None
      case Some(s) => Some(Card(s.box, s.layerIndex, CardGeometry.CardCorners(s.box)))
    }
  }
}
