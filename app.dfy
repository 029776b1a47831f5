/** App.js: the application state (pallets, selected pallet index, loading flag),
    the upload and pallet-change handlers, and the choice of screen. The POST to the
    palletization service is reduced to its reply. */
module App {
  import opened Packing
  import ColourTable

  /** The outcome of the request: the response data, or the error that was caught. */
  datatype UploadReply = Success(data: seq<Pallet>) | Failure(message: string)

  /** What the content area shows; the viewer shows the pallet selector or not. */
  datatype Screen = UploadButton | Spinner | Viewer(showSelector: bool)

  /** An entry of the pallet selector: its value (the position in the list) and the
      pallet number shown as its label. */
  datatype SelectorOption = SelectorOption(value: int, palletIndex: int)

  /** Exactly one screen is shown: the upload button when there are no pallets and
      nothing is loading, the spinner while loading, the viewer otherwise; the viewer
      has a selector exactly when there is more than one pallet. */
  function ScreenFor(pallets: seq<Pallet>, loading: bool): (s: Screen)
    ensures s == UploadButton <==> |pallets| == 0 && !loading
    ensures s == Spinner <==> loading
    ensures s.Viewer? <==> |pallets| > 0 && !loading
    ensures s.Viewer? ==> (s.showSelector <==> |pallets| > 1)
  {
    if |pallets| == 0 && !loading then UploadButton
    else if loading then Spinner
    else Viewer(|pallets| > 1)
  }

  function SelectorOptions(pallets: seq<Pallet>): (opts: seq<SelectorOption>)
    ensures |opts| == |pallets|
  {
    seq(|pallets|, i requires 0 <= i < |pallets| => SelectorOption(i, pallets[i].palletIndex))
  }

  /** The selector offers exactly the indices 0 .. |pallets| - 1, each labelled with
      its pallet's number, so whatever is chosen is in range. */
  lemma SelectorOffersEveryIndex(pallets: seq<Pallet>)
    ensures forall o :: o in SelectorOptions(pallets) ==> 0 <= o.value < |pallets| && o.palletIndex == pallets[o.value].palletIndex
    ensures forall v :: 0 <= v < |pallets| ==> SelectorOption(v, pallets[v].palletIndex) in SelectorOptions(pallets)
  {
    var opts := SelectorOptions(pallets);
    forall v | 0 <= v < |pallets| ensures SelectorOption(v, pallets[v].palletIndex) in opts {
      assert opts[v] == SelectorOption(v, pallets[v].palletIndex);
    }
  }

  /** The relation between the list and the index that the screens maintain: the index
      is 0 or names a pallet. */
  predicate IndexConsistent(pallets: seq<Pallet>, index: int)
  {
    0 <= index && (index == 0 || index < |pallets|)
  }

  /** Whenever the viewer is shown in a consistent state, the selected index names a
      pallet, whose layers are the ones drawn. */
  lemma ViewerHasSelectedPallet(pallets: seq<Pallet>, index: int, loading: bool)
    requires IndexConsistent(pallets, index) && ScreenFor(pallets, loading).Viewer?
    ensures 0 <= index < |pallets|
    ensures ColourTable.SelectedLayers(pallets, index) == pallets[index].layers
  {
  }

  /** The upload button is only shown with no pallets, so the index is still 0 when a
      reply arrives, and it is consistent with any list that replaces the pallets. */
  lemma UploadKeepsIndexConsistent(pallets: seq<Pallet>, index: int, data: seq<Pallet>)
    requires IndexConsistent(pallets, index) && ScreenFor(pallets, false) == UploadButton
    ensures index == 0 && IndexConsistent(data, index)
  {
  }

  /** Choosing an entry of the selector leaves the index consistent. */
  lemma ChoosingAnOptionKeepsIndexConsistent(pallets: seq<Pallet>, o: SelectorOption)
    requires o in SelectorOptions(pallets)
    ensures IndexConsistent(pallets, o.value)
  {
    SelectorOffersEveryIndex(pallets);
  }

  class App {
    var pallets: seq<Pallet>
    var selectedPalletIndex: int
    var loading: bool

    /** No pallets, the first pallet selected, not loading: the upload button. */
    constructor ()
      ensures pallets == [] && selectedPalletIndex == 0 && !loading
      ensures Screen() == UploadButton && IndexConsistent(pallets, selectedPalletIndex)
    {
      pallets := [];
      selectedPalletIndex := 0;
      loading := false;
    }

    function Screen(): Screen
      reads this
    {
      ScreenFor(pallets, loading)
    }

    /** The part of handleFileUpload before the request: setLoading(true). */
    method BeginUpload()
      modifies this
      ensures loading
      ensures pallets == old(pallets) && selectedPalletIndex == old(selectedPalletIndex)
      ensures Screen() == Spinner
    {
      loading := true;
    }

    /** The part after the reply: on success the pallets are replaced by the response
        data, on failure they are kept; in both cases (finally) loading ends. */
    method FinishUpload(reply: UploadReply)
      modifies this
      ensures !loading
      ensures reply.Success? ==> pallets == reply.data
      ensures reply.Failure? ==> pallets == old(pallets)
      ensures selectedPalletIndex == old(selectedPalletIndex)
    {
      match reply {
        case Success(data) => pallets := data;
        case Failure(_) =>
      }
      loading := false;
    }

    /** handleFileUpload as one atomic run. */
    method HandleFileUpload(reply: UploadReply)
      modifies this
      ensures !loading
      ensures reply.Success? ==> pallets == reply.data
      ensures reply.Failure? ==> pallets == old(pallets)
      ensures selectedPalletIndex == old(selectedPalletIndex)
      ensures reply.Failure? && old(Screen()) == UploadButton ==> Screen() == UploadButton
      ensures old(Screen()) == UploadButton && old(IndexConsistent(pallets, selectedPalletIndex)) ==>
                IndexConsistent(pallets, selectedPalletIndex)
    {
      BeginUpload();
      FinishUpload(reply);
    }

    /** handlePalletChange: only the selected index changes; a value taken from the
        selector leaves the index consistent. */
    method HandlePalletChange(value: int)
      modifies this
      ensures selectedPalletIndex == value
      ensures pallets == old(pallets) && loading == old(loading)
      ensures (exists o :: o in SelectorOptions(pallets) && o.value == value) ==>
                IndexConsistent(pallets, selectedPalletIndex)
    {
      selectedPalletIndex := value;
    }
  }
}
