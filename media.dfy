/** The media library panel of the right sidebar: the assets it is given, filtered
    by the active media tab, drawn as cards with a duration or item-count badge, under
    a header that counts every asset. */
module MediaLibrary {
  import opened Seqs
  import opened Wrappers
  import opened JsText

  datatype AssetType = Video | Audio | Image | Text | Folder

  /** An asset id is a number or a string; only integral numbers are modelled. */
  datatype AssetId = NumberId(n: int) | StringId(s: string)

  /** A library item. `src`, `duration` and `itemCount` may be absent (`null` or
      `undefined`); `kind` is the item's `type`. */
  datatype Asset = Asset(
    id: AssetId,
    kind: AssetType,
    src: Option<string>,
    duration: Option<string>,
    name: string,
    itemCount: Option<int>)

  /** The five media tabs. */
  datatype MediaTab = VideoTab | CameraTab | AudioTab | ImageTab | TextTab

  /** The asset type a tab selects; the camera tab selects none in particular. */
  function TabType(tab: MediaTab): Option<AssetType>
  {
    match tab
    case VideoTab => Some(Video)
    case AudioTab => Some(Audio)
    case ImageTab => Some(Image)
    case TextTab => Some(Text)
    case CameraTab => None
  }

  /** The filter callback: a typed tab keeps the assets of its type, the camera tab
      keeps everything. */
  predicate ShownUnder(tab: MediaTab, a: Asset)
  {
    if tab == VideoTab then a.kind == Video
    else if tab == AudioTab then a.kind == Audio
    else if tab == ImageTab then a.kind == Image
    else if tab == TextTab then a.kind == Text
    else true
  }

  /** `filteredAssets`. */
  function FilteredAssets(assets: seq<Asset>, tab: MediaTab): seq<Asset>
  {
    Filter(assets, (a: Asset) => ShownUnder(tab, a))
  }

  /** Under a typed tab the list is exactly the assets of that type, in their original
      order and with their multiplicities. */
  lemma TypedTabExact(assets: seq<Asset>, tab: MediaTab)
    requires tab != CameraTab
    ensures IsSubsequence(FilteredAssets(assets, tab), assets)
    ensures forall a :: a in FilteredAssets(assets, tab) <==> a in assets && Some(a.kind) == TabType(tab)
    ensures forall a :: multiset(FilteredAssets(assets, tab))[a] ==
                          if Some(a.kind) == TabType(tab) then multiset(assets)[a] else 0
  {
  }

  /** The camera tab shows the asset list unchanged. */
  lemma CameraShowsEverything(assets: seq<Asset>)
    ensures FilteredAssets(assets, CameraTab) == assets
  {
    FilterAllPass(assets, (a: Asset) => ShownUnder(CameraTab, a));
  }

  /** The list never grows: it is an order-preserving subsequence of the assets. */
  lemma FilteredIsSubsequence(assets: seq<Asset>, tab: MediaTab)
    ensures IsSubsequence(FilteredAssets(assets, tab), assets)
    ensures |FilteredAssets(assets, tab)| <= |assets|
  {
  }

  /** Folders are listed only under the camera tab, and two different typed tabs
      never list the same asset. */
  lemma TabsSeparateTypes(assets: seq<Asset>, tab1: MediaTab, tab2: MediaTab, a: Asset)
    ensures a.kind == Folder && a in FilteredAssets(assets, tab1) ==> tab1 == CameraTab
    ensures tab1 != tab2 && tab1 != CameraTab && tab2 != CameraTab ==>
              !(a in FilteredAssets(assets, tab1) && a in FilteredAssets(assets, tab2))
  {
    if a in FilteredAssets(assets, tab1) {
      assert ShownUnder(tab1, a);
    }
    if a in FilteredAssets(assets, tab2) {
      assert ShownUnder(tab2, a);
    }
  }

  /** What the badge expression `{(duration || itemCount) && <div>{duration ||
      `${itemCount} items`}</div>}` renders: nothing, a badge, or, when its guard
      evaluates to the number 0, the bare text "0" (React prints numbers). */
  datatype BadgeNode = Nothing | BadgeBox(text: string) | StrayText(text: string)

  /** A string is truthy when it is present and non-empty. */
  predicate HasDuration(a: Asset)
  {
    a.duration.Some? && a.duration.value != ""
  }

  /** A number is truthy when it is present and non-zero. */
  predicate HasItemCount(a: Asset)
  {
    a.itemCount.Some? && a.itemCount.value != 0
  }

  /** The badge expression as written. */
  function BadgeAsWritten(a: Asset): BadgeNode
  {
    if HasDuration(a) then BadgeBox(a.duration.value)
    else if a.itemCount.None? then Nothing
    else if a.itemCount.value != 0 then BadgeBox(IntToString(a.itemCount.value) + " items")
    else StrayText("0")
  }

  /** An instance of the stray-text case that `BadgeIntended` and `CardOf` characterise:
      a folder with no duration and an item count of 0 gets a stray "0" in its card
      instead of no badge. */
  lemma StrayZeroBadge()
    ensures BadgeAsWritten(Asset(NumberId(12), Folder, None, None, "Empty", Some(0))) == StrayText("0")
  {
  }

  /** The badge as evidently intended: the duration when there is one, otherwise the
      item count followed by " items" when there is a non-zero count, else nothing. */
  function Badge(a: Asset): BadgeNode
  {
    if HasDuration(a) then BadgeBox(a.duration.value)
    else if HasItemCount(a) then BadgeBox(IntToString(a.itemCount.value) + " items")
    else Nothing
  }

  /** The intended badge never renders stray text, shows exactly when the asset has a
      duration or a non-zero item count, prefers the duration, and agrees with the
      expression as written except where that one renders the stray "0". */
  lemma BadgeIntended(a: Asset)
    ensures !Badge(a).StrayText?
    ensures Badge(a).BadgeBox? <==> HasDuration(a) || HasItemCount(a)
    ensures HasDuration(a) ==> Badge(a) == BadgeBox(a.duration.value)
    ensures !HasDuration(a) && HasItemCount(a) ==>
              Badge(a).text == IntToString(a.itemCount.value) + " items"
    ensures BadgeAsWritten(a).StrayText? <==> !HasDuration(a) && a.itemCount == Some(0)
    ensures !BadgeAsWritten(a).StrayText? ==> BadgeAsWritten(a) == Badge(a)
  {
  }

  /** The thumbnail area: the image when `src` is truthy, else a placeholder with an
      icon for audio, text and folder assets (none for the others) above the name. */
  datatype Thumbnail = Picture(src: string) | Placeholder(icon: Option<AssetType>, caption: string)

  function ThumbnailOf(a: Asset): (t: Thumbnail)
    ensures t.Placeholder? <==> a.src.None? || a.src.value == ""
    ensures t.Picture? ==> a.src == Some(t.src)
    ensures t.Placeholder? ==> t.caption == a.name
    ensures t.Placeholder? ==> (t.icon.Some? <==> a.kind == Audio || a.kind == Text || a.kind == Folder)
    ensures t.Placeholder? && t.icon.Some? ==> t.icon.value == a.kind
  {
    if a.src.Some? && a.src.value != "" then Picture(a.src.value)
    else Placeholder(if a.kind in {Audio, Text, Folder} then Some(a.kind) else None, a.name)
  }

  /** A card of the grid; `addOverlay` is the "+" shown on hover. */
  datatype Card = Card(thumbnail: Thumbnail, badge: BadgeNode, addOverlay: bool)

  /** A card as the grid draws it, badge expression as written included. */
  function CardOf(a: Asset): (c: Card)
    ensures c.thumbnail == ThumbnailOf(a)
    ensures c.addOverlay <==> a.kind != Folder
    ensures c.badge.StrayText? <==> !HasDuration(a) && a.itemCount == Some(0)
    ensures !c.badge.StrayText? ==> c.badge == Badge(a)
  {
    BadgeIntended(a);
    Card(ThumbnailOf(a), BadgeAsWritten(a), a.kind != Folder)
  }

  /** The card with the corrected badge. */
  function CardOfIntended(a: Asset): (c: Card)
    ensures !c.badge.StrayText?
    ensures c.badge.BadgeBox? <==> HasDuration(a) || HasItemCount(a)
    ensures c == CardOf(a).(badge := Badge(a))
  {
    BadgeIntended(a);
    Card(ThumbnailOf(a), Badge(a), a.kind != Folder)
  }

  /** The panel: the header's "<n> Items" text, the cards, whether "No media found" is
      shown, and whether the "Project Files" demo folder is appended. */
  datatype LibraryView = LibraryView(countLabel: string, cards: seq<Card>, noMediaFound: bool, projectFilesMock: bool)

  function RenderLibrary(assets: seq<Asset>, tab: MediaTab): (v: LibraryView)
    ensures v.noMediaFound <==> forall a :: a in assets ==> !ShownUnder(tab, a)
    ensures |v.cards| == |FilteredAssets(assets, tab)|
    ensures forall i :: 0 <= i < |v.cards| ==> v.cards[i] == CardOf(FilteredAssets(assets, tab)[i])
    ensures v.projectFilesMock <==> tab == VideoTab
  {
    var shown := FilteredAssets(assets, tab);
    assert shown != [] ==> shown[0] in shown;
    LibraryView(NatToString(|assets|) + " Items", Map(shown, CardOf), |shown| == 0, tab == VideoTab)
  }

  /** The header counts every asset, whatever the tab: its number reads back as
      `assets.length`. */
  lemma CountIgnoresTab(assets: seq<Asset>, tab1: MediaTab, tab2: MediaTab)
    ensures RenderLibrary(assets, tab1).countLabel == RenderLibrary(assets, tab2).countLabel
    ensures var header := RenderLibrary(assets, tab1).countLabel;
            |header| > 6 && header[|header| - 6..] == " Items"
            && IsDigits(header[..|header| - 6]) && DigitsValue(header[..|header| - 6]) == |assets|
  {
    var digits := NatToString(|assets|);
    var header := digits + " Items";
    assert header[..|header| - 6] == digits;
    NatToStringRoundTrip(|assets|);
  }

  /** The panel as written shows the stray "0": a lone empty folder on the camera tab
      is drawn with the bare text "0" where its badge would be. */
  lemma StrayZeroInPanel()
    ensures var v := RenderLibrary([Asset(NumberId(12), Folder, None, None, "Empty", Some(0))], CameraTab);
            |v.cards| == 1 && v.cards[0].badge == StrayText("0") && !v.noMediaFound
  {
    var a := Asset(NumberId(12), Folder, None, None, "Empty", Some(0));
    CameraShowsEverything([a]);
  }

  /** Under a typed tab every card offers the "+" overlay, since folders are not listed. */
  lemma TypedTabCardsAddable(assets: seq<Asset>, tab: MediaTab)
    requires tab != CameraTab
    ensures forall c :: c in RenderLibrary(assets, tab).cards ==> c.addOverlay
  {
    var v := RenderLibrary(assets, tab);
    var shown := FilteredAssets(assets, tab);
    forall c | c in v.cards ensures c.addOverlay {
      var i :| 0 <= i < |v.cards| && v.cards[i] == c;
      assert shown[i] in shown;
    }
  }
}
