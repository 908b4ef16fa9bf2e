/** `transformAssetToAssetSelection`: the list of assets offered for selection
    as algorithms of a compute dataset. An asset is listed when it has a
    non-negative price and its compute service (or, lacking one, its access
    service) runs on the dataset's provider; it is checked when a selected
    algorithm has its DID. Checked entries go to the front (`unshift`),
    unchecked ones to the back (`push`). */
module AssetConvertor {
  import opened Common

  /** A service of a published asset: its type ('compute', 'access', ...) and endpoint. */
  datatype ServiceEntry = ServiceEntry(serviceType: string, serviceEndpoint: string)

  datatype DatatokenInfo = DatatokenInfo(address: string, symbol: string)

  /** A published asset as far as the list needs it; `price` is `stats.price.value`. */
  datatype Asset = Asset(id: string, name: string, price: Option<real>, services: seq<ServiceEntry>, datatokens: seq<DatatokenInfo>)

  /** An entry of the publisher's trusted-algorithm list. */
  datatype TrustedAlgorithm = TrustedAlgorithm(did: string, filesChecksum: string, containerSectionChecksum: string)

  datatype AssetSelectionAsset = AssetSelectionAsset(
    did: string,
    name: string,
    price: real,
    checked: bool,
    symbol: string,
    isAccountIdWhitelisted: bool)

  /** The call's other arguments; `isAddressWhitelisted` is left uninterpreted. */
  datatype Query = Query(
    datasetProviderEndpoint: string,
    accountId: string,
    selectedAlgorithms: Option<seq<TrustedAlgorithm>>,
    isAddressWhitelisted: (Asset, string) -> bool)

  /** `getServiceByName(asset, name)`: the first service of that type. */
  function ServiceByName(services: seq<ServiceEntry>, name: string): (r: Option<ServiceEntry>)
    ensures r.None? <==> forall k :: 0 <= k < |services| ==> services[k].serviceType != name
    ensures r.Some? ==> exists k :: 0 <= k < |services| && services[k] == r.value
                          && r.value.serviceType == name
                          && forall j :: 0 <= j < k ==> services[j].serviceType != name
  {
    if |services| == 0 then None
    else if services[0].serviceType == name then Some(services[0])
    else
      var r := ServiceByName(services[1..], name);
      assert forall k :: 1 <= k < |services| ==> services[k] == services[1..][k - 1];
      r
  }

  /** The compute service, or the access service when there is none. */
  function AlgorithmService(asset: Asset): Option<ServiceEntry> {
    var compute := ServiceByName(asset.services, "compute");
    if compute.Some? then compute else ServiceByName(asset.services, "access")
  }

  /** An algorithm is listed when it has a non-negative price and its compute
      (else access) service is served by the dataset's provider. */
  predicate Included(q: Query, asset: Asset) {
    && asset.price.Some? && asset.price.value >= 0.0
    && AlgorithmService(asset).Some?
    && AlgorithmService(asset).value.serviceEndpoint == q.datasetProviderEndpoint
  }

  /** Some selected algorithm has DID `id` (the `forEach` that sets `selected`). */
  function IsSelected(selected: seq<TrustedAlgorithm>, id: string): (r: bool)
    ensures r <==> exists k :: 0 <= k < |selected| && selected[k].did == id
  {
    if |selected| == 0 then false
    else
      var rest := IsSelected(selected[..|selected| - 1], id);
      assert forall k :: 0 <= k < |selected| - 1 ==> selected[k] == selected[..|selected| - 1][k];
      rest || selected[|selected| - 1].did == id
  }

  predicate Checked(q: Query, asset: Asset) {
    q.selectedAlgorithms.Some? && IsSelected(q.selectedAlgorithms.value, asset.id)
  }

  /** Every listed asset has a datatoken to take the symbol from (the source reads
      `datatokens[0]` unchecked). */
  predicate Listable(q: Query, assets: seq<Asset>) {
    forall i :: 0 <= i < |assets| && Included(q, assets[i]) ==> |assets[i].datatokens| > 0
  }

  /** The entry built for a listed asset. */
  function Entry(q: Query, asset: Asset): (e: AssetSelectionAsset)
    requires asset.price.Some? && |asset.datatokens| > 0
    ensures e.did == asset.id && e.name == asset.name && e.price == asset.price.value
    ensures e.symbol == asset.datatokens[0].symbol
    ensures e.checked <==> q.selectedAlgorithms.Some?
                           && exists k :: 0 <= k < |q.selectedAlgorithms.value| && q.selectedAlgorithms.value[k].did == asset.id
    ensures e.isAccountIdWhitelisted == q.isAddressWhitelisted(asset, q.accountId)
  {
    AssetSelectionAsset(asset.id, asset.name, asset.price.value, Checked(q, asset),
                        asset.datatokens[0].symbol, q.isAddressWhitelisted(asset, q.accountId))
  }

  /** The entries of the listed assets whose checked flag is `checked`, in input order. */
  function Listed(q: Query, assets: seq<Asset>, checked: bool): (r: seq<AssetSelectionAsset>)
    requires Listable(q, assets)
    ensures |r| <= |assets|
    ensures forall k :: 0 <= k < |r| ==> r[k].checked == checked
  {
    if |assets| == 0 then []
    else
      var init := assets[..|assets| - 1];
      var last := assets[|assets| - 1];
      assert forall i :: 0 <= i < |init| ==> init[i] == assets[i];
      var rest := Listed(q, init, checked);
      if Included(q, last) && Checked(q, last) == checked then rest + [Entry(q, last)] else rest
  }

  /** The entries of all listed assets, in input order. */
  function AllListed(q: Query, assets: seq<Asset>): (r: seq<AssetSelectionAsset>)
    requires Listable(q, assets)
    ensures |r| <= |assets|
    ensures forall e :: e in r ==> exists i :: 0 <= i < |assets| && Included(q, assets[i]) && e == Entry(q, assets[i])
  {
    if |assets| == 0 then []
    else
      var init := assets[..|assets| - 1];
      var last := assets[|assets| - 1];
      assert forall i :: 0 <= i < |init| ==> init[i] == assets[i];
      var rest := AllListed(q, init);
      if Included(q, last) then rest + [Entry(q, last)] else rest
  }

  /** The list the source builds: checked entries in reverse input order, then
      unchecked entries in input order. */
  function SelectionOrder(q: Query, assets: seq<Asset>): seq<AssetSelectionAsset>
    requires Listable(q, assets)
  {
    Reverse(Listed(q, assets, true)) + Listed(q, assets, false)
  }

  /** Appending an asset extends its class of entries by its entry, if listed. */
  lemma ListedSnoc(q: Query, assets: seq<Asset>, asset: Asset, checked: bool)
    requires Listable(q, assets + [asset])
    requires Included(q, asset) ==> |asset.datatokens| > 0
    ensures Listable(q, assets)
    ensures Listed(q, assets + [asset], checked)
            == if Included(q, asset) && Checked(q, asset) == checked
               then Listed(q, assets, checked) + [Entry(q, asset)] else Listed(q, assets, checked)
  {
    assert (assets + [asset])[..|assets|] == assets;
    assert forall i :: 0 <= i < |assets| ==> assets[i] == (assets + [asset])[i];
  }

  /** A prefix of a listable sequence is listable, and so is the prefix one
      element shorter extended by that element. */
  lemma ListablePrefix(q: Query, assets: seq<Asset>, n: nat)
    requires Listable(q, assets) && 0 < n <= |assets|
    ensures assets[..n] == assets[..n - 1] + [assets[n - 1]]
    ensures Listable(q, assets[..n]) && Listable(q, assets[..n - 1] + [assets[n - 1]])
    ensures Included(q, assets[n - 1]) ==> |assets[n - 1].datatokens| > 0
  {
    assert assets[..n] == assets[..n - 1] + [assets[n - 1]];
    assert forall i :: 0 <= i < n ==> assets[..n][i] == assets[i];
  }

  /** `unshift` onto a reversed list is the reversal of `push`. */
  lemma ReverseSnoc<T>(s: seq<T>, x: T)
    ensures Reverse(s + [x]) == [x] + Reverse(s)
  {
    assert (s + [x])[..|s|] == s;
  }

  /** One iteration of the source's loop: a checked entry is put in front, an
      unchecked one at the back, an unlisted asset is skipped. */
  lemma SelectionStep(q: Query, assets: seq<Asset>, asset: Asset)
    requires Listable(q, assets + [asset])
    requires Included(q, asset) ==> |asset.datatokens| > 0
    ensures Listable(q, assets)
    ensures SelectionOrder(q, assets + [asset])
            == if !Included(q, asset) then SelectionOrder(q, assets)
               else if Checked(q, asset) then [Entry(q, asset)] + SelectionOrder(q, assets)
               else SelectionOrder(q, assets) + [Entry(q, asset)]
  {
    ListedSnoc(q, assets, asset, true);
    ListedSnoc(q, assets, asset, false);
    if Included(q, asset) {
      if Checked(q, asset) {
        PushFront(Listed(q, assets, true), Listed(q, assets, false), Entry(q, asset));
      } else {
        PushBack(Reverse(Listed(q, assets, true)), Listed(q, assets, false), Entry(q, asset));
      }
    }
  }

  /** `unshift`: a new last checked entry comes out first. */
  lemma PushFront<T>(checked: seq<T>, unchecked: seq<T>, e: T)
    ensures Reverse(checked + [e]) + unchecked == [e] + (Reverse(checked) + unchecked)
  {
    ReverseSnoc(checked, e);
    var front := Reverse(checked);
    assert ([e] + front) + unchecked == [e] + (front + unchecked);
  }

  /** `push`: a new last unchecked entry comes out last. */
  lemma PushBack<T>(front: seq<T>, unchecked: seq<T>, e: T)
    ensures front + (unchecked + [e]) == (front + unchecked) + [e]
  {
  }

  /** One pass of the source's loop body: filter, compute the checked flag,
      build the entry, then `unshift` or `push` it. */
  method AddAsset(q: Query, prefix: seq<Asset>, asset: Asset, list: seq<AssetSelectionAsset>)
    returns (list': seq<AssetSelectionAsset>)
    requires Listable(q, prefix + [asset])
    requires Included(q, asset) ==> |asset.datatokens| > 0
    requires Listable(q, prefix) && list == SelectionOrder(q, prefix)
    ensures list' == SelectionOrder(q, prefix + [asset])
  {
    SelectionStep(q, prefix, asset);
    list' := list;
    if Included(q, asset) {
      var entry := Entry(q, asset);
      if Checked(q, asset) {
        list' := [entry] + list;
      } else {
        list' := list + [entry];
      }
    }
  }

  /** `transformAssetToAssetSelection(datasetProviderEndpoint, assets, accountId, selectedAlgorithms)` */
  method TransformAssetToAssetSelection(q: Query, assets: seq<Asset>) returns (list: seq<AssetSelectionAsset>)
    requires Listable(q, assets)
    ensures list == SelectionOrder(q, assets)
    ensures |list| <= |assets|
    ensures CheckedFirst(list)
  {
    list := [];
    var n := 0;
    while n < |assets|
      invariant 0 <= n <= |assets|
      invariant Listable(q, assets[..n])
      invariant list == SelectionOrder(q, assets[..n])
    {
      ListablePrefix(q, assets, n + 1);
      list := AddAsset(q, assets[..n], assets[n], list);
      n := n + 1;
    }
    assert assets[..n] == assets;
    OrderedByChecked(q, assets);
  }

  /** Every checked entry precedes every unchecked entry. */
  predicate CheckedFirst(list: seq<AssetSelectionAsset>) {
    forall i, j :: 0 <= i < j < |list| && list[j].checked ==> list[i].checked
  }

  /** The selection order puts every checked entry before every unchecked one. */
  lemma OrderedByChecked(q: Query, assets: seq<Asset>)
    requires Listable(q, assets)
    ensures CheckedFirst(SelectionOrder(q, assets))
    ensures |SelectionOrder(q, assets)| <= |assets|
  {
    var checked := Listed(q, assets, true);
    var unchecked := Listed(q, assets, false);
    var list := SelectionOrder(q, assets);
    ReverseReverses(checked);
    assert forall k :: 0 <= k < |checked| ==> list[k] == checked[|checked| - 1 - k];
    assert forall k :: |checked| <= k < |list| ==> list[k] == unchecked[k - |checked|];
    ListedPartition(q, assets);
    assert |list| == |AllListed(q, assets)|;
  }

  /** The checked and unchecked entries together are exactly the listed entries. */
  lemma {:induction false} ListedPartition(q: Query, assets: seq<Asset>)
    requires Listable(q, assets)
    ensures multiset(Listed(q, assets, true)) + multiset(Listed(q, assets, false)) == multiset(AllListed(q, assets))
    ensures |Listed(q, assets, true)| + |Listed(q, assets, false)| == |AllListed(q, assets)|
  {
    if |assets| > 0 {
      var init := assets[..|assets| - 1];
      assert forall i :: 0 <= i < |init| ==> init[i] == assets[i];
      ListedPartition(q, init);
    }
  }

  /** No included asset is dropped. */
  lemma {:induction false} AllListedHasEveryIncluded(q: Query, assets: seq<Asset>)
    requires Listable(q, assets)
    ensures forall i :: 0 <= i < |assets| && Included(q, assets[i]) ==> Entry(q, assets[i]) in AllListed(q, assets)
  {
    if |assets| > 0 {
      var init := assets[..|assets| - 1];
      assert forall i :: 0 <= i < |init| ==> init[i] == assets[i];
      AllListedHasEveryIncluded(q, init);
    }
  }

  /** The output is a rearrangement of the listed entries: each appears as
      often as in the input order. */
  lemma SelectionIsPermutationOfListed(q: Query, assets: seq<Asset>)
    requires Listable(q, assets)
    ensures multiset(SelectionOrder(q, assets)) == multiset(AllListed(q, assets))
  {
    ListedPartition(q, assets);
    ReverseReverses(Listed(q, assets, true));
  }

  /** Each output entry copies one included input asset, and every included
      asset has its entry in the output. */
  lemma SelectionHoldsExactlyIncluded(q: Query, assets: seq<Asset>)
    requires Listable(q, assets)
    ensures forall e :: e in SelectionOrder(q, assets) ==>
              exists i :: 0 <= i < |assets| && Included(q, assets[i]) && e == Entry(q, assets[i])
    ensures forall i :: 0 <= i < |assets| && Included(q, assets[i]) ==> Entry(q, assets[i]) in SelectionOrder(q, assets)
  {
    SelectionIsPermutationOfListed(q, assets);
    AllListedHasEveryIncluded(q, assets);
    var list := SelectionOrder(q, assets);
    var all := AllListed(q, assets);
    forall e | e in list
      ensures e in all
    {
      assert e in multiset(list);
    }
    forall i | 0 <= i < |assets| && Included(q, assets[i])
      ensures Entry(q, assets[i]) in list
    {
      assert Entry(q, assets[i]) in multiset(all);
    }
  }

  /** Without a selection nothing is checked and the output keeps input order. */
  lemma {:induction false} NoSelectionKeepsOrder(q: Query, assets: seq<Asset>)
    requires Listable(q, assets)
    requires q.selectedAlgorithms.None?
    ensures Listed(q, assets, true) == []
    ensures SelectionOrder(q, assets) == AllListed(q, assets)
  {
    if |assets| > 0 {
      var init := assets[..|assets| - 1];
      assert forall i :: 0 <= i < |init| ==> init[i] == assets[i];
      NoSelectionKeepsOrder(q, init);
    }
  }
}
