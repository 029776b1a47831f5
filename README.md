# palletization-front, modelled in Dafny

The repository is a React viewer for the results of a pallet-packing service. It
uploads an order file, receives a list of pallets (layers of boxes with position and
dimensions), and draws the selected pallet in 3D. Clicking a box shows a card with its
attributes and its 8 corners. This project models the parts of that viewer that are
logic rather than UI, with exact arithmetic (`real` for coordinates, `int` for
indices):

- `Packing` (packing.dfy): the pallet / layer / box data and small vector helpers.
- `CardGeometry` (card_geometry.dfy): the detail card's corner list and the render
  centre and extents of `BoxWithEdges`. The box position is the minimum corner. The
  render axes are (x, height, depth), taken from data (x, z, y).
- `BoxDetails` (box_details.dfy): the unused `BoxDetails` component. It treats the
  position as the centre and lists corners at ± half-extents. A lemma ties its
  convention to the card's convention.
- `BoxKeys` (box_keys.dfy): the box key `${layer_index}_${index}`, with JavaScript's
  decimal rendering of integers, and its injectivity.
- `Colours` (colours.dfy): `generateRandomColor`. The colour is '#' plus the
  lower-case hex digits of a draw below 16777215, with no zero padding.
- `ColourTable` (colour_table.dfy): the reference definition of the colour dictionary that
  the effect builds, as a function of the boxes visited in loop order and the draws.
- `Visualizer` (visualizer.dfy): the nested loop that builds the dictionary. Also
  the `PalletVisualizer` class, which holds the colour table and the selected box, and
  the scene as a list of per-box descriptors (key, centre, extents, colour, edge style).
- `App` (app.dfy): the `App` class (pallets, selected index, loading), the upload and
  pallet-change handlers, and the choice of screen.

Inputs that the model does not compute:
- Each `Math.random()` draw, once floored, is an element of an input sequence `draws`.
  The draws are consumed in the order the loops visit the boxes.
- The POST request is an input `UploadReply`: `Success(data)` or `Failure(message)`.
- `handleFileUpload` is split at its `await`. `BeginUpload` is `setLoading(true)`.
  `FinishUpload` holds the try/catch/finally.

Three behaviours of the code that are easy to assume otherwise:
- Changing the selected pallet re-runs the colour effect. It does not clear the
  selected box (`RefreshColours` keeps `selectedBoxData`). A stale key such as `0_0`
  therefore highlights the box with that key in the newly selected pallet.
- There are no per-layer visibility toggles: every layer of the selected pallet is drawn.
- A successful upload does not reset `selectedPalletIndex` to 0. The upload button is
  only shown while there are no pallets, and the selector only offers indices of the
  current list. So as long as each handler is called from the screen that offers it,
  the index is 0 or names a pallet. `App.App.HandleFileUpload` and
  `App.App.HandlePalletChange` state this under exactly that condition. Called directly
  in other states, the handlers can leave an index past the end of the list.

## Model

| member | source | states |
|---|---|---|
| `CardGeometry.CardCorners` | src/components/PalletVisualization.js:7-20 | the card lists 8 corners; the first is the position and the last is the position plus (width, length, height) |
| `CardGeometry.CardCornerAt` | src/components/PalletVisualization.js:11-20 | corner i adds the width when bit 0 of i is set, the length for bit 1 and the height for bit 2 (binary order, x fastest) |
| `CardGeometry.CardCornersAreCombinations` | src/components/PalletVisualization.js:11-20 | the listed corners are exactly the points whose x, y and z are each the box's minimum or maximum on that axis (both directions) |
| `CardGeometry.CardCornersInsideBox` | src/components/PalletVisualization.js:11-20 | with non-negative dimensions every listed corner lies in [x, x+width] × [y, y+length] × [z, z+height] |
| `CardGeometry.CardCornersDistinct` | src/components/PalletVisualization.js:11-20 | with positive dimensions the 8 corners are pairwise distinct |
| `CardGeometry.RenderCentre` | src/components/PalletVisualization.js:61-65 | the mesh position is the midpoint of the card's first and last corners with y and z swapped, i.e. (x+width/2, z+height/2, y+length/2) |
| `CardGeometry.RenderExtents` | src/components/PalletVisualization.js:67 | the box geometry's extents are the data extents with y and z swapped: (width, height, length) |
| `CardGeometry.RenderBoxBounds` | src/components/PalletVisualization.js:59-67 | the centred render box spans from (x, z, y) to (x+width, z+height, y+length), the swapped first and last card corners |
| `CardGeometry.RenderBoxIsSwappedDataBox` | src/components/PalletVisualization.js:59-67 | a point is inside the drawn box iff its y/z-swapped image is inside the data box [x, x+width] × [y, y+length] × [z, z+height] |
| `CardGeometry.OriginBoxExample` | src/components/PalletVisualization.js:8-65 | a box at the origin with width 100, height 50 and length 200 is drawn around (50, 25, 100), and its card starts at (0, 0, 0) and ends at (100, 200, 50) |
| `BoxDetails.HalfExtents` | src/components/BoxDetails.js:5-7 | the half-extents (dx, dy, dz) are half of (width, height, length) |
| `BoxDetails.DisplayedCentre` | src/components/BoxDetails.js:27 | the displayed centre is the position read as (x, z, y): swapping its last two coordinates back gives the stored position |
| `BoxDetails.CentreCorners` | src/components/BoxDetails.js:9-18 | the component lists 8 corners; corner 1 is the displayed centre minus the half-extents and corner 7 is the centre plus them |
| `BoxDetails.CentreCornerAt` | src/components/BoxDetails.js:9-18 | corner i is (x ± dx, z ± dy, y ± dz) with signs + for the upper face (i ≥ 4) and the face walk (-,-), (+,-), (+,+), (-,+) |
| `BoxDetails.CentreCornersAreSignCombinations` | src/components/BoxDetails.js:9-18 | a point is listed iff it is one of the 8 sign combinations (x ± dx, z ± dy, y ± dz) |
| `BoxDetails.CentreCornersDistinct` | src/components/BoxDetails.js:9-18 | with positive dimensions the 8 corners are pairwise distinct |
| `BoxDetails.CentroidIsDisplayedCentre` | src/components/BoxDetails.js:9-27 | the mean of the 8 corners is (x, z, y), the point displayed as the centre |
| `BoxDetails.LowerAndUpperFaces` | src/components/BoxDetails.js:10-17 | corners 1-4 have second coordinate z−dy, corners 5-8 have z+dy, and corner i+4 is corner i raised by the height |
| `BoxDetails.FacesAreRectangles` | src/components/BoxDetails.js:10-17 | with non-zero width and length, cyclically consecutive corners of each face differ in exactly one coordinate |
| `BoxDetails.OppositeCorners` | src/components/BoxDetails.js:10-16 | corner 7 minus corner 1 is (width, height, length) |
| `BoxDetails.CentredAt` | src/components/BoxDetails.js:3-7 | moving the position to the data-space centre makes the displayed centre equal to the render centre of the original box |
| `BoxDetails.CentreCornersMatchCardCorners` | src/components/BoxDetails.js:9-18 | around the data-space centre, the centre-based corners are exactly the card's corners with y and z swapped (both directions) |
| `BoxKeys.IntToString` | src/components/PalletVisualization.js:103 | the decimal rendering of a layer index is non-empty and contains no '_' |
| `BoxKeys.NatToString` | src/components/PalletVisualization.js:103 | the decimal rendering of a box position is non-empty and made of digits only |
| `BoxKeys.NatToStringRoundTrip` | src/components/PalletVisualization.js:103 | reading back the decimal digits of a box position gives the position |
| `BoxKeys.NatToStringNoLeadingZero` | src/components/PalletVisualization.js:103 | the decimal rendering starts with '0' only for 0 |
| `BoxKeys.IntToStringRoundTrip` | src/components/PalletVisualization.js:103 | reading back the rendering of a (possibly negative) layer index gives the index |
| `BoxKeys.SplitAtSeparator` | src/components/PalletVisualization.js:102-103 | a string `a_b` with no '_' in `a` determines `a` and `b` |
| `BoxKeys.BoxKey` | src/components/PalletVisualization.js:103 | the key `${layer.layer_index}_${index}` decodes: its first '_' splits it into text that reads back as the layer index and text that reads back as the box position (also at line 143) |
| `BoxKeys.BoxKeyInjective` | src/components/PalletVisualization.js:102-103 | two keys are equal iff their layer indices and their box positions are equal |
| `BoxKeys.SeparatorIsNeeded` | src/components/PalletVisualization.js:103 | without the '_', layer 1 box 11 and layer 11 box 1 would collide; with it they do not |
| `Colours.Hex` | src/components/PalletVisualization.js:53 | toString(16) gives at least one digit, all from 0-9a-f |
| `Colours.HexRoundTrip` | src/components/PalletVisualization.js:53 | reading back the hex digits gives the number |
| `Colours.HexLength` | src/components/PalletVisualization.js:53 | the rendering has at most k digits iff the number is below 16^k (no zero padding) |
| `Colours.RandomColour` | src/components/PalletVisualization.js:53 | a draw below 16777215 gives '#' followed by 1 to 6 lower-case hex digits |
| `Colours.RandomColourDecodes` | src/components/PalletVisualization.js:53 | the digits after '#' read back as the draw, and "#ffffff" is never produced |
| `Colours.RandomColourInjective` | src/components/PalletVisualization.js:53 | two draws give the same colour string iff they are equal |
| `Colours.RandomColourLength` | src/components/PalletVisualization.js:53 | the string has all 6 digits iff the draw is at least 0x100000, and a single digit iff the draw is below 16 |
| `ColourTable.FillKeys` | src/components/PalletVisualization.js:99-106 | writing keys one after another into an empty dictionary gives an entry for exactly the keys written |
| `ColourTable.SelectedLayers` | src/components/PalletVisualization.js:100 | `pallets[selectedPalletIndex]?.layers` is the indexed pallet's layers when the index names a pallet, and no layers otherwise (also at line 140) |
| `ColourTable.Slots` | src/components/PalletVisualization.js:100-101 | the two nested `forEach` loops visit one entry per box: as many as the layers' box counts added up |
| `ColourTable.SlotsOrigin` | src/components/PalletVisualization.js:100-101 | every visited entry is box number `index` of some layer, carrying that layer's index |
| `ColourTable.SlotsComplete` | src/components/PalletVisualization.js:100-101 | every box of every layer is visited, with its layer index and its position in the layer |
| `ColourTable.KeySet` | src/components/PalletVisualization.js:100-103 | every key of the reference key set splits at its first '_' into some layer's index and a position below that layer's box count |
| `ColourTable.Fill` | src/components/PalletVisualization.js:99-106 | writing keys in order into `{}` gives at most one entry per write, and the last key written holds the last value |
| `ColourTable.ColourMap` | src/components/PalletVisualization.js:99-106 | the effect's dictionary has at most one entry per visited box, and the last box visited keeps the colour of its draw |
| `ColourTable.FillAt` | src/components/PalletVisualization.js:99-106 | when no key is written twice, each key maps to the value written with it |
| `ColourTable.ColourMapSnoc` | src/components/PalletVisualization.js:103-104 | visiting one more box writes exactly one more entry, its key := the colour of the next draw |
| `ColourTable.SlotKeysAreKeySet` | src/components/PalletVisualization.js:100-103 | a key belongs to the visited boxes iff it is `${layer.layer_index}_${i}` for some layer and 0 ≤ i < its box count |
| `ColourTable.ColourMapKeys` | src/components/PalletVisualization.js:99-106 | the dictionary has an entry for exactly the keys of the visited boxes |
| `ColourTable.ColourMapValues` | src/components/PalletVisualization.js:104 | every entry of the dictionary is a colour string |
| `ColourTable.ColourMapAt` | src/components/PalletVisualization.js:101-105 | when the keys are pairwise distinct, the n-th box visited keeps the colour of the n-th draw |
| `ColourTable.SlotKeysDistinct` | src/components/PalletVisualization.js:100-103 | if the layer indices of a pallet are distinct, the keys of its boxes are pairwise distinct |
| `ColourTable.ColourTableComplete` | src/components/PalletVisualization.js:98-108 | for the selected pallet the table's keys are exactly its key set, every value is a colour string, and the table is empty when the index names no pallet |
| `Visualizer.BuildColours` | src/components/PalletVisualization.js:99-106 | the nested loop over layers and boxes builds exactly the reference table of the selected pallet |
| `Visualizer.ColourLayer` | src/components/PalletVisualization.js:101-105 | the inner loop adds one entry per box of the layer and uses one draw per box |
| `Visualizer.ColourLayerStep` | src/components/PalletVisualization.js:103-104 | one iteration of the inner loop extends the visited boxes by the current box and the table by its entry |
| `Visualizer.SceneOf` | src/components/PalletVisualization.js:140-157 | one descriptor is drawn per box of the selected pallet |
| `Visualizer.IsSelected` | src/components/PalletVisualization.js:145 | with no selection no box is selected; with one, a box is selected iff its key equals the stored `uniqueKey` |
| `Visualizer.EdgeFor` | src/components/PalletVisualization.js:71-74 | the edge is `Highlight` (red, width 10) iff the box is selected and `Plain` (black, width 2) iff it is not |
| `Visualizer.ViewOf` | src/components/PalletVisualization.js:56-90 | a box is drawn under its key, around the swapped midpoint of its card's first and last corners, with the swapped data extents, in the colour stored under its key if any, and with the red edge iff its key is the stored one |
| `Visualizer.SceneFullyColoured` | src/components/PalletVisualization.js:143-144 | after the colour effect every drawn box finds a colour string under its key |
| `Visualizer.SceneColoursFollowDraws` | src/components/PalletVisualization.js:140-157 | with distinct layer indices, the n-th drawn box has the colour of the n-th draw |
| `Visualizer.AtMostOneHighlighted` | src/components/PalletVisualization.js:145 | with distinct layer indices at most one drawn box has the red, width-10 edge, whatever is selected |
| `Visualizer.ClickHighlightsExactlyThatBox` | src/components/PalletVisualization.js:84 | storing the box, layer index and key a drawn box's click passes highlights that box and no other |
| `Visualizer.NothingHighlightedWithoutSelection` | src/components/PalletVisualization.js:145 | with no selection every drawn box has the black, width-2 edge |
| `Visualizer.PalletVisualizer.constructor` | src/components/PalletVisualization.js:94-95 | the visualizer starts with no selection and an empty colour table |
| `Visualizer.PalletVisualizer.RefreshColours` | src/components/PalletVisualization.js:98-108 | the effect replaces the table with the reference table of the selected pallet and keeps the selected box |
| `Visualizer.PalletVisualizer.HandleBoxClick` | src/components/PalletVisualization.js:111-113 | a click stores the box with its layer index and key and leaves the colour table alone |
| `Visualizer.PalletVisualizer.CloseCard` | src/components/PalletVisualization.js:132 | closing the card clears the selection and leaves the colour table alone |
| `Visualizer.PalletVisualizer.DetailCard` | src/components/PalletVisualization.js:128-134 | the card is shown iff a box is selected and shows that box, its layer index and its 8 corners |
| `Visualizer.PalletVisualizer.Scene` | src/components/PalletVisualization.js:140-157 | the canvas draws one box per box of the selected pallet, and with no selection every edge is black, width 2 |
| `App.ScreenFor` | src/App.js:46-81 | exactly one screen: the upload button iff no pallets and not loading, the spinner iff loading, otherwise the viewer, with a selector iff more than one pallet |
| `App.SelectorOffersEveryIndex` | src/App.js:68-75 | the selector's values are exactly 0 .. |pallets|−1, each labelled with its pallet's number |
| `App.SelectorOptions` | src/App.js:71-75 | the selector has one option per pallet |
| `App.ViewerHasSelectedPallet` | src/App.js:61-79 | in a consistent state the viewer is only shown when the selected index names a pallet |
| `App.UploadKeepsIndexConsistent` | src/App.js:46-60 | the upload button is only reachable with index 0, so any successful upload leaves a consistent index |
| `App.ChoosingAnOptionKeepsIndexConsistent` | src/App.js:70-75 | choosing a selector entry gives an index in range |
| `App.App.constructor` | src/App.js:11-13 | the initial state is no pallets, index 0, not loading, which shows the upload button |
| `App.App.BeginUpload` | src/App.js:17 | before the request, loading is set and nothing else changes, so the spinner is shown |
| `App.App.FinishUpload` | src/App.js:21-31 | on success the pallets become the response data, on failure they stay; loading ends either way; the index is untouched |
| `App.App.HandleFileUpload` | src/App.js:16-32 | the whole handler: same outcome as above; a failed first upload returns to the upload button, and an upload started from the upload button leaves a consistent index |
| `App.App.HandlePalletChange` | src/App.js:34-36 | only the selected index changes, to the chosen value, and a value offered by the selector leaves the index consistent |

## Left out

- Rendering is not modelled: React/JSX, `useState`/`useEffect` scheduling, three.js geometry and materials, the canvas, lights, camera, orbit controls and the floor mesh. The scene is a list of per-box descriptors.
- `Math.random` is not modelled: each floored draw is an input.
- JavaScript floating point and `toFixed(2)` formatting are not modelled. Coordinates are exact reals, and layer indices are assumed to be integers.
- Text on the card and in the selector is not modelled (article id, weight, rotation flag, `max_load/1000`, labels), except the corner list and the pallet number used as an option label.
- The HTTP request is not modelled: the form data, the axios call, the success and error toasts, and the `.csv` restriction of the upload widget. It becomes the `UploadReply` input.
- Overlapping uploads are not modelled (concurrency). One handler run is one atomic sequence, or its two halves.
- The effect that logs layer and box counts to the console is not modelled (I/O only).
- The click's `stopPropagation` is not modelled. A click is modelled as a call of `HandleBoxClick` with the arguments the clicked box passes.
- The `{...box, layerIndex, uniqueKey}` spread is modelled as a `Selection` record. A box whose own data already had fields with those two names is not modelled.
- The selector's `defaultValue={0}` only affects what the widget displays, so it is not modelled.
- src/index.js is not part of this model. It only mounts the app.
- Visualizer.BuildColours: requires at least one draw per box (and each draw below 16777215), because the random source is a finite input sequence rather than `Math.random`.
- Visualizer.PalletVisualizer.RefreshColours: same requirement on the draws, for the same reason.
