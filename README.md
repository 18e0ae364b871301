# Video editor UI: the stateful and computed pieces, modelled in Dafny

The repository is the React front end of a video editor. Almost all of it is markup.
This project models the four pieces that hold state or compute something:

- **Toolbar customisation dialog.** The user edits an ordered list of tool ids drawn from a fixed catalogue of twelve tools.
  - Adding appends an id while the list holds fewer than twelve.
  - Removing drops every occurrence of an id.
  - "Reset Default" puts back six fixed ids.
  - The catalogue entries not yet selected are offered for adding, in catalogue order.
  - Selected ids with no catalogue entry are not drawn.
  - "Save Changes" hands the working list to the host; "Cancel" only closes the dialog.
  - Module `CustomizeToolbar` (`toolbar.dfy`).
- **Project rename in the header.** There are three state cells: the committed name, an editing flag and an edit buffer.
  - Clicking the title starts editing, and typing replaces the buffer.
  - Enter or leaving the field saves. A save commits the buffer verbatim, untrimmed, but only when its trimmed form is non-empty.
  - Escape abandons the edit.
  - Module `ProjectHeader` (`header.dfy`).
- **Media library panel.** The asset list is filtered by the active media tab; the camera tab shows everything. Assets are drawn as cards with a duration or item-count badge, under a header that counts every asset.
  - Module `MediaLibrary` (`media.dfy`).
- **Timeline panel.** It draws fixed demonstration tracks.
  - Each clip is placed at `start * 10` pixels with width `duration * 10`.
  - Clips on audio tracks carry a waveform overlay.
  - A ruler of twenty ticks reads "00:00" to "00:19".
  - Module `TimelineLayout` (`timeline.dfy`).

Shared modules:

- `Seqs` (`seqs.dfy`): the JavaScript `filter` and `map`, subsequences, duplicate-free sequences.
- `JsText` (`jstext.dfy`): the whitespace set that `String.prototype.trim` strips, `trim` itself, and decimal rendering of numbers with its read-back.
- `Wrappers` (`wrappers.dfy`): an `Option` type.

The React state cells become fields of a class:

- `CustomizeToolbar.ToolbarEditor` holds the working selection.
- `ProjectHeader.Header` holds the three header cells.

Each event handler is a method, and its `ensures` ties the new state to a pure transition function of the old state. The properties are proved as lemmas about those functions, for example:

- a save never commits a blank name, and this holds over any sequence of events;
- the offered and displayed tools split the catalogue between them;
- removing is idempotent and keeps the order.

Rendering is modelled as pure functions from the component's inputs to a small description of what is drawn: cards, badges, labels and pixel positions.

Two behaviours of the code worth knowing up front:

- The timeline component has no editing operations. Its tracks are constants drawn at a fixed scale of ten pixels per second.
- The toolbar dialog ignores an add at twelve ids rather than reporting it. It offers only unselected tools, and `CustomizeToolbar.AddOfferedKeepsWellFormed` proves that adding offered tools never creates a duplicate.

## Model

| member | source | states |
|---|---|---|
| Seqs.Filter | components/Sidebar/RightSidebar.tsx:18-24 | `Array.prototype.filter`: the result is an order-preserving subsequence of the input holding every value that satisfies the predicate exactly as often as the input does, and no other value |
| JsText.Trim | components/Header/Header.tsx:23 | `trim()` yields the empty string exactly when the input is empty or all whitespace; the result is the slice of the input between a whitespace-only prefix and a whitespace-only suffix, and when non-empty it starts and ends with a non-whitespace character |
| JsText.IntToString | components/Sidebar/RightSidebar.tsx:110 | an integer renders as a non-empty run of decimal digits with no leading zero (only 0 itself starts with "0") that reads back as its absolute value, after a minus sign exactly when it is negative |
| JsText.NatToString | components/Sidebar/RightSidebar.tsx:49 | a number renders as a non-empty run of decimal digits with no leading zero, and is one character long exactly when it is below ten |
| JsText.NatToStringRoundTrip | components/Sidebar/RightSidebar.tsx:49 | the rendered digits of a number read back as that number |
| CustomizeToolbar.CatalogueIdsDistinct | components/FloatingToolbar/CustomizeToolbarModal.tsx:15-28 | the catalogue has twelve entries with twelve pairwise different ids |
| CustomizeToolbar.Find | components/FloatingToolbar/CustomizeToolbarModal.tsx:69 | the lookup finds an entry exactly when some entry has the id, and what it finds is the first entry with that id |
| CustomizeToolbar.FindCatalogueEntry | components/FloatingToolbar/CustomizeToolbarModal.tsx:69 | looking up a catalogue entry's id yields that very entry |
| CustomizeToolbar.Displayed | components/FloatingToolbar/CustomizeToolbarModal.tsx:68-70 | the current-tools area draws one catalogue entry per selected id that has an entry, in selection order; ids without an entry are skipped |
| CustomizeToolbar.DisplayedExactlyKnown | components/FloatingToolbar/CustomizeToolbarModal.tsx:68-70 | a tool is drawn as current exactly when its id is selected and has a catalogue entry, and no more entries are drawn than ids are selected |
| CustomizeToolbar.Available | components/FloatingToolbar/CustomizeToolbarModal.tsx:95-96 | the offered tools are exactly the catalogue entries whose id is not selected, in catalogue order |
| CustomizeToolbar.OfferedOrDisplayed | components/FloatingToolbar/CustomizeToolbarModal.tsx:68-96 | each catalogue entry is either offered or drawn as current, never both and never neither |
| CustomizeToolbar.AllSelectedMeansEveryId | components/FloatingToolbar/CustomizeToolbarModal.tsx:111-113 | "All tools selected!" shows exactly when every catalogue id is selected, which takes at least twelve selected ids |
| CustomizeToolbar.WellFormedCapacity | components/FloatingToolbar/CustomizeToolbarModal.tsx:95-113 | a duplicate-free selection of catalogue ids never exceeds twelve, and for it "All tools selected!" shows exactly when the add buttons are disabled |
| CustomizeToolbar.AddedBounded | components/FloatingToolbar/CustomizeToolbarModal.tsx:35-39 | below twelve ids an add appends the id at the end and keeps the earlier ids in order; at twelve or more it changes nothing; so adds never take a selection past twelve |
| CustomizeToolbar.AddOfferedKeepsWellFormed | components/FloatingToolbar/CustomizeToolbarModal.tsx:95-102 | adding an offered tool keeps a duplicate-free selection of catalogue ids duplicate-free and within the catalogue |
| CustomizeToolbar.RemoveProperties | components/FloatingToolbar/CustomizeToolbarModal.tsx:41-43 | removing drops every occurrence of the id, keeps every other id as often and in the same order, is a no-op for an absent id, and is idempotent |
| CustomizeToolbar.RemoveKeepsWellFormed | components/FloatingToolbar/CustomizeToolbarModal.tsx:41-43 | removing keeps a well-formed selection well-formed, and the removed tool is offered again |
| CustomizeToolbar.DefaultIsWellFormed | components/FloatingToolbar/CustomizeToolbarModal.tsx:61 | the default selection consists of six distinct catalogue ids |
| CustomizeToolbar.ToolbarEditor.constructor | components/FloatingToolbar/CustomizeToolbarModal.tsx:31 | the working selection starts as the host's current tool ids |
| CustomizeToolbar.ToolbarEditor.Add | components/FloatingToolbar/CustomizeToolbarModal.tsx:35-39 | the new selection is the old one with the id appended when the old one held fewer than twelve ids, and the old one otherwise |
| CustomizeToolbar.ToolbarEditor.Remove | components/FloatingToolbar/CustomizeToolbarModal.tsx:41-43 | the new selection is the old one with every occurrence of the id filtered out |
| CustomizeToolbar.ToolbarEditor.ResetDefault | components/FloatingToolbar/CustomizeToolbarModal.tsx:61 | the new selection is exactly cut, text, audio, transitions, speed, ai, whatever it held before |
| CustomizeToolbar.ToolbarEditor.Press | components/FloatingToolbar/CustomizeToolbarModal.tsx:119-123 | "Save Changes" passes the working selection unchanged to `onSave` and does not call `onClose`; "Cancel" calls `onClose` and never `onSave` |
| ProjectHeader.SaveOutcome | components/Header/Header.tsx:22-29 | a save with a non-blank buffer commits it verbatim; a save with a blank buffer keeps the name and copies it into the buffer; every save ends editing |
| ProjectHeader.SaveKeepsNameNonBlank | components/Header/Header.tsx:22-29 | saving keeps a non-blank committed name non-blank and leaves the buffer equal to the name |
| ProjectHeader.SaveIdempotent | components/Header/Header.tsx:22-29 | saving twice in a row gives the same state as saving once |
| ProjectHeader.SaveDoesNotTrim | components/Header/Header.tsx:23-24 | the buffer "  Trip  " trims to "Trip" yet is committed as "  Trip  " |
| ProjectHeader.BlankIsNotCommitted | components/Header/Header.tsx:23-28 | saving a whitespace-only buffer from the initial name returns to the initial state |
| ProjectHeader.KeyOutcome | components/Header/Header.tsx:31-37 | Escape restores the buffer to the name and ends editing without touching the name; Enter is exactly a save; any other key changes nothing |
| ProjectHeader.ClickAndTypeOutcome | components/Header/Header.tsx:53-62 | a click starts editing only when not editing and changes nothing else; typing replaces the buffer and nothing else |
| ProjectHeader.Step | components/Header/Header.tsx:53-66 | a click on the title always reaches its handler; typing, leaving the field and key presses reach theirs only while editing (the field exists only then) and change nothing otherwise |
| ProjectHeader.IgnoredUntilClick | components/Header/Header.tsx:53-66 | outside editing, any run of events without a title click leaves the state unchanged |
| ProjectHeader.StepKeepsConsistent | components/Header/Header.tsx:22-64 | every event keeps the invariant: a non-blank committed name, and outside editing a buffer equal to it |
| ProjectHeader.InitialConsistent | components/Header/Header.tsx:10-12 | the mounted state, name and buffer "Summer_2025.mp4" and not editing, satisfies the invariant |
| ProjectHeader.NameNeverBlank | components/Header/Header.tsx:22-64 | any sequence of events from a state satisfying the invariant ends in a state satisfying it |
| ProjectHeader.NameNeverBlankFromMount | components/Header/Header.tsx:10-64 | whatever the user does after mount, the committed name is never empty or all whitespace |
| ProjectHeader.Header.constructor | components/Header/Header.tsx:10-12 | the cells start as the initial state, which satisfies the invariant |
| ProjectHeader.Header.HandleSave | components/Header/Header.tsx:22-29 | the new cells are the save transition of the old ones, and the invariant is kept |
| ProjectHeader.Header.HandleKeyDown | components/Header/Header.tsx:31-37 | the new cells are the key transition of the old ones, with Enter saving and then Escape restoring, and the invariant is kept |
| ProjectHeader.Header.HandleClick | components/Header/Header.tsx:53 | the new cells are the click transition of the old ones, and the invariant is kept |
| ProjectHeader.Header.HandleChange | components/Header/Header.tsx:62 | while editing the buffer takes the field's value, and the invariant is kept |
| MediaLibrary.TypedTabExact | components/Sidebar/RightSidebar.tsx:18-22 | under the video, audio, image and text tabs the list is exactly the assets of that type, in order and with their multiplicities |
| MediaLibrary.CameraShowsEverything | components/Sidebar/RightSidebar.tsx:23 | the camera tab lists the assets unchanged |
| MediaLibrary.FilteredIsSubsequence | components/Sidebar/RightSidebar.tsx:18-24 | the list is always an order-preserving subsequence of the assets, never longer than they are |
| MediaLibrary.TabsSeparateTypes | components/Sidebar/RightSidebar.tsx:18-23 | folders are listed only under the camera tab, and two different typed tabs never list the same asset |
| MediaLibrary.StrayZeroBadge | components/Sidebar/RightSidebar.tsx:108-111 | as written, a folder with no duration and an item count of 0 renders the bare text "0" where no badge was meant |
| MediaLibrary.BadgeIntended | components/Sidebar/RightSidebar.tsx:108-111 | the corrected badge shows the duration when there is one, else "<count> items" for a non-zero count, else nothing; it never renders stray text, and agrees with the expression as written except in the stray-zero case |
| MediaLibrary.ThumbnailOf | components/Sidebar/RightSidebar.tsx:96-105 | the image is drawn exactly when `src` is present and non-empty; otherwise a placeholder with the asset's name and an icon exactly for audio, text and folder assets |
| MediaLibrary.CardOf | components/Sidebar/RightSidebar.tsx:95-120 | a card has the asset's thumbnail, the add overlay exactly for non-folder assets, and the badge as written, which is the stray "0" exactly when there is no duration and the item count is 0, and the corrected badge otherwise |
| MediaLibrary.CardOfIntended | components/Sidebar/RightSidebar.tsx:95-120 | the card with the corrected badge differs from the drawn card only in its badge, never carries stray text, and has a badge exactly when there is a duration or a non-zero item count |
| MediaLibrary.RenderLibrary | components/Sidebar/RightSidebar.tsx:91-136 | the cards are the filtered assets' cards as drawn (badge as written), in order; "No media found" shows exactly when no asset passes the tab's filter; the demo folder appears exactly on the video tab |
| MediaLibrary.StrayZeroInPanel | components/Sidebar/RightSidebar.tsx:93-111 | on the camera tab, a lone folder with no duration and an item count of 0 is drawn with the bare text "0" as its badge |
| MediaLibrary.CountIgnoresTab | components/Sidebar/RightSidebar.tsx:49 | the header is the same on every tab and reads "<n> Items", where the digits read back as the number of assets |
| MediaLibrary.TypedTabCardsAddable | components/Sidebar/RightSidebar.tsx:114-119 | under a typed tab every card shows the add overlay, since folders are not listed there |
| TimelineLayout.PlacementSpan | components/Editor/Timeline.tsx:97-98 | a clip's left offset is its start times ten, its right edge its end time times ten, and its width is positive exactly when its duration is |
| TimelineLayout.PlacementOrder | components/Editor/Timeline.tsx:97-98 | an earlier start gives a smaller left offset and equal starts equal offsets, and conversely |
| TimelineLayout.PlacementDisjoint | components/Editor/Timeline.tsx:97-98 | two clips' time intervals are disjoint exactly when their pixel spans are |
| TimelineLayout.LaneBoxesPlaced | components/Editor/Timeline.tsx:89-112 | each drawn clip box sits at its clip's scaled times and carries the waveform exactly when its track is an audio track |
| TimelineLayout.LaneDisjoint | components/Editor/Timeline.tsx:86-116 | a track whose clips do not overlap in time draws boxes that do not overlap |
| TimelineLayout.RulerLabels | components/Editor/Timeline.tsx:76-80 | the ruler has exactly twenty ticks, tick i labelled with tick label i |
| TimelineLayout.TickLabelReadsBack | components/Editor/Timeline.tsx:78 | tick label i, for i below one hundred, is "00:" followed by two digits that read back as i |
| TimelineLayout.RulerLabelsDistinct | components/Editor/Timeline.tsx:76-80 | the twenty labels are pairwise different and run from "00:00" to "00:19" |
| TimelineLayout.MockTracksWellFormed | components/Editor/Timeline.tsx:7-24 | in the demonstration tracks every clip has its track's type, starts at or after zero, has positive duration and overlaps no other clip; only the audio track's clip gets a waveform |

## Left out

- Timeline editing (adding, moving, splitting, deleting clips, zoom, scrolling, playhead scrubbing, snapping): the timeline component has none of it; its tracks are constants and its playhead is a fixed CSS position.
- Dragging the floating toolbar: it lives in a `useDraggable` hook; hooks/useDraggable is not part of this model.
- The text-generation service (services/geminiService.ts): network calls to an external SDK.
- Settings, profile menu, tools sidebar, preview canvas and app shell: static markup and toggle state only.
- Icons, CSS classes, layout, and the `isOpen` early return of the toolbar dialog (it draws nothing when closed).
- The "Current Tools (n/12)" counter: it only prints the selection's length.
- The zoom slider's fill percentage in the sidebar: floating-point presentation.
- The waveform bar heights in the timeline: `Math.random()`.
- Clip positions as CSS strings: positions are reals, and JavaScript's number-to-string conversion with the `px` suffix is not modelled.
- The track headers' upper-cased type labels: presentation only.
- Numbers in general are unbounded integers or exact reals; the JavaScript double range and rounding are not modelled. `MediaLibrary.Asset` allows only integral numeric ids and item counts.
- Strings are sequences of code points rather than UTF-16 code units; `trim` is modelled on the code points that ECMAScript classes as white space or line terminators.
- The media tab state: the tab is an input of the view, since its setter only stores the clicked tab.
- React scheduling: state updates are applied at once and in order. Batching, stale closures, and the blur that fires when the field unmounts after Enter or Escape are not modelled; an extra blur outside editing is ignored by `ProjectHeader.Step`.
- The dialog's working selection persists across close and reopen (it is seeded only on mount); the model covers a single mount.
- The focus and select-all effect when editing starts: DOM side effects only.

## Findings

| source | as written | input that shows it | evidently intended | confidence | as-written member | corrected member |
|---|---|---|---|---|---|---|
| components/Sidebar/RightSidebar.tsx:108-111 | the badge is guarded by `(duration \|\| itemCount) && …`; when `duration` is absent and `itemCount` is `0`, the guard evaluates to the number `0`, which React renders as the text "0" | a folder asset with no `duration` and `itemCount: 0` | no badge at all when there is neither a duration nor a non-zero item count | not executed | MediaLibrary.StrayZeroBadge | MediaLibrary.BadgeIntended |
