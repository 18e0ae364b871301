/** The "Customize Floating Toolbar" dialog: a working selection of tool ids drawn
    from a fixed twelve-entry catalogue, edited by adding (capped at twelve), removing
    every occurrence of an id, and resetting to a six-tool default; the catalogue
    entries not yet selected are offered for adding. */
module CustomizeToolbar {
  import opened Seqs
  import opened Wrappers

  /** A catalogue entry: its id and its label `caption` (the icon is presentation only). */
  datatype ToolDef = ToolDef(id: string, caption: string)

  /** The most tools the selection may hold through adding. */
  const MaxTools: nat := 12

  /** The catalogue, in display order. */
  const AllTools: seq<ToolDef> := [
    ToolDef("cut", "Cut"),
    ToolDef("text", "Text"),
    ToolDef("audio", "Audio"),
    ToolDef("transitions", "Transition"),
    ToolDef("speed", "Speed"),
    ToolDef("ai", "AI Subtitle"),
    ToolDef("bg-remove", "Remove BG"),
    ToolDef("color-grade", "Color Grade"),
    ToolDef("crop", "Crop"),
    ToolDef("rotate", "Rotate"),
    ToolDef("volume", "Volume"),
    ToolDef("split", "Split")
  ]

  /** What "Reset Default" puts back. */
  const DefaultToolIds: seq<string> := ["cut", "text", "audio", "transitions", "speed", "ai"]

  /** No two entries of `tools` share an id. */
  predicate DistinctIds(tools: seq<ToolDef>)
  {
    forall i, j :: 0 <= i < j < |tools| ==> tools[i].id != tools[j].id
  }

  /** The ids of `tools`, as a set. */
  function IdSet(tools: seq<ToolDef>): set<string>
  {
    set t | t in tools :: t.id
  }

  lemma IdInIdSet(tools: seq<ToolDef>, t: ToolDef)
    requires t in tools
    ensures t.id in IdSet(tools)
  {
  }

  /** An id with a catalogue entry. */
  predicate IsKnown(id: string)
  {
    id in IdSet(AllTools)
  }

  /** Entries with distinct ids have as many ids as entries. */
  lemma DistinctIdsCount(tools: seq<ToolDef>)
    requires DistinctIds(tools)
    ensures |IdSet(tools)| == |tools|
  {
    var ids := Map(tools, (t: ToolDef) => t.id);
    assert IdSet(tools) == Elements(ids) by {
      forall x | x in IdSet(tools) ensures x in Elements(ids) {
        var u :| u in tools && u.id == x;
        var k :| 0 <= k < |tools| && tools[k] == u;
        assert ids[k] == x;
      }
      forall x | x in Elements(ids) ensures x in IdSet(tools) {
        var k :| 0 <= k < |ids| && ids[k] == x;
        assert tools[k] in tools;
      }
    }
    DistinctElementsAtMostLength(ids);
  }

  /** The catalogue has twelve entries and no two share an id. */
  lemma CatalogueIdsDistinct()
    ensures |AllTools| == MaxTools
    ensures DistinctIds(AllTools)
    ensures |IdSet(AllTools)| == MaxTools
  {
    assert AllTools[0].id == "cut";
    assert AllTools[1].id == "text";
    assert AllTools[2].id == "audio";
    assert AllTools[3].id == "transitions";
    assert AllTools[4].id == "speed";
    assert AllTools[5].id == "ai";
    assert AllTools[6].id == "bg-remove";
    assert AllTools[7].id == "color-grade";
    assert AllTools[8].id == "crop";
    assert AllTools[9].id == "rotate";
    assert AllTools[10].id == "volume";
    assert AllTools[11].id == "split";
    forall i, j | 0 <= i < j < 12 ensures AllTools[i].id != AllTools[j].id {
    }
    DistinctIdsCount(AllTools);
  }

  /** `tools.find(t => t.id === id)`: the first entry with that id, if there is one. */
  function Find(tools: seq<ToolDef>, id: string): (r: Option<ToolDef>)
    ensures r.Some? <==> id in IdSet(tools)
    ensures r.Some? ==> exists k :: 0 <= k < |tools| && tools[k] == r.value && r.value.id == id
                                    && forall m :: 0 <= m < k ==> tools[m].id != id
  {
    if tools == [] then None
    else if tools[0].id == id then Some(tools[0])
    else
      assert tools == [tools[0]] + tools[1..];
      assert IdSet(tools) == {tools[0].id} + IdSet(tools[1..]);
      var r := Find(tools[1..], id);
      if r.Some? then
        var k :| 0 <= k < |tools[1..]| && tools[1..][k] == r.value && r.value.id == id
                 && forall m :: 0 <= m < k ==> tools[1..][m].id != id;
        assert tools[k + 1] == r.value;
        assert forall m :: 0 <= m < k + 1 ==> tools[m].id != id by {
          forall m | 0 <= m < k + 1 ensures tools[m].id != id {
            if m > 0 {
              assert tools[m] == tools[1..][m - 1];
            }
          }
        }
        r
      else
        r
  }

  /** Among entries with distinct ids, looking up an entry's id finds that entry. */
  lemma FindDistinct(tools: seq<ToolDef>, t: ToolDef)
    requires DistinctIds(tools)
    requires t in tools
    ensures Find(tools, t.id) == Some(t)
  {
    var r := Find(tools, t.id);
    var i :| 0 <= i < |tools| && tools[i] == r.value;
    var j :| 0 <= j < |tools| && tools[j] == t;
    assert i == j;
  }

  /** Looking up a catalogue entry's id finds that very entry. */
  lemma FindCatalogueEntry(t: ToolDef)
    requires t in AllTools
    ensures Find(AllTools, t.id) == Some(t)
  {
    CatalogueIdsDistinct();
    FindDistinct(AllTools, t);
  }

  /** The entries drawn in the "Current Tools" area: one per selected id, in selection
      order, with ids that have no catalogue entry skipped. */
  function Displayed(selected: seq<string>): (r: seq<ToolDef>)
    ensures forall t :: t in r ==> t in AllTools && t.id in selected
    ensures Map(r, (t: ToolDef) => t.id) == Filter(selected, IsKnown)
  {
    if selected == [] then []
    else
      var rest := Displayed(selected[1..]);
      match Find(AllTools, selected[0])
      case Some(t) =>
        assert ([t] + rest)[1..] == rest;
        [t] + rest
      case None => rest
  }

  /** Every selected id with a catalogue entry is drawn, and only such ids; nothing
      is drawn that was not selected. */
  lemma DisplayedExactlyKnown(selected: seq<string>)
    ensures |Displayed(selected)| <= |selected|
    ensures forall id :: id in selected && IsKnown(id) <==> id in IdSet(Displayed(selected))
  {
    var r := Displayed(selected);
    var ids := Map(r, (t: ToolDef) => t.id);
    assert |ids| == |r|;
    forall id | id in selected && IsKnown(id) ensures id in IdSet(r) {
      assert id in ids;
      var i :| 0 <= i < |ids| && ids[i] == id;
      assert r[i] in r;
    }
  }

  /** The entries offered under "Available Tools": the catalogue minus the selection,
      in catalogue order. */
  function Available(selected: seq<string>): (r: seq<ToolDef>)
    ensures forall t :: t in r <==> t in AllTools && t.id !in selected
    ensures IsSubsequence(r, AllTools)
  {
    Filter(AllTools, (t: ToolDef) => t.id !in selected)
  }

  /** "All tools selected!" is shown when nothing is left to offer. */
  predicate ShowsAllSelected(selected: seq<string>)
  {
    |Available(selected)| == 0
  }

  /** The add buttons are enabled while the selection is below capacity. */
  predicate CanAdd(selected: seq<string>)
  {
    |selected| < MaxTools
  }

  /** A catalogue entry is offered exactly when it is not drawn among the current
      tools: the two areas are disjoint and together show the whole catalogue. */
  lemma OfferedOrDisplayed(selected: seq<string>, t: ToolDef)
    requires t in AllTools
    ensures t in Available(selected) <==> t !in Displayed(selected)
  {
    DisplayedExactlyKnown(selected);
    if t !in Available(selected) {
      assert t.id in selected && IsKnown(t.id);
      assert t.id in IdSet(Displayed(selected));
      var u :| u in Displayed(selected) && u.id == t.id;
      FindCatalogueEntry(t);
      FindCatalogueEntry(u);
    }
  }

  /** "All tools selected!" appears exactly when every catalogue id is selected, and
      that takes a selection of at least twelve ids. */
  lemma AllSelectedMeansEveryId(selected: seq<string>)
    ensures ShowsAllSelected(selected) <==> IdSet(AllTools) <= Elements(selected)
    ensures ShowsAllSelected(selected) ==> |selected| >= MaxTools
  {
    var avail := Available(selected);
    var sel := Elements(selected);
    if !ShowsAllSelected(selected) {
      assert avail[0] in avail;
      assert avail[0].id !in sel;
    } else {
      forall x | x in IdSet(AllTools) ensures x in sel {
        var t :| t in AllTools && t.id == x;
        assert t !in avail;
      }
      CatalogueIdsDistinct();
      SubsetNotLarger(IdSet(AllTools), sel);
      DistinctElementsAtMostLength(selected);
    }
  }

  /** A selection that adding only offered ids produces: no id twice, every id known. */
  predicate WellFormed(selected: seq<string>)
  {
    NoDuplicates(selected) && Elements(selected) <= IdSet(AllTools)
  }

  /** For a well-formed selection the capacity guard and the catalogue agree: it never
      exceeds twelve ids, and nothing is offered exactly when the add buttons are
      disabled. */
  lemma WellFormedCapacity(selected: seq<string>)
    requires WellFormed(selected)
    ensures |selected| <= MaxTools
    ensures ShowsAllSelected(selected) <==> !CanAdd(selected)
  {
    CatalogueIdsDistinct();
    DistinctElementsAtMostLength(selected);
    SubsetNotLarger(Elements(selected), IdSet(AllTools));
    AllSelectedMeansEveryId(selected);
    if |selected| == MaxTools {
      CoversWhenFull(selected, IdSet(AllTools));
    }
  }

  /** `handleAdd(id)`: append while the selection is below capacity, else nothing. */
  function Added(selected: seq<string>, id: string): seq<string>
  {
    if CanAdd(selected) then selected + [id] else selected
  }

  /** Adding appends at the end and keeps what was there, or leaves a full selection
      alone; so a selection of at most twelve ids stays within twelve. */
  lemma AddedBounded(selected: seq<string>, id: string)
    ensures |selected| < MaxTools ==>
              && |Added(selected, id)| == |selected| + 1
              && Added(selected, id)[..|selected|] == selected
              && Added(selected, id)[|selected|] == id
    ensures |selected| >= MaxTools ==> Added(selected, id) == selected
    ensures |selected| <= MaxTools ==> |Added(selected, id)| <= MaxTools
  {
  }

  /** Adding an offered id keeps a well-formed selection well-formed. */
  lemma AddOfferedKeepsWellFormed(selected: seq<string>, t: ToolDef)
    requires WellFormed(selected)
    requires t in Available(selected)
    ensures WellFormed(Added(selected, t.id))
  {
    assert t in AllTools && t.id !in selected;
    IdInIdSet(AllTools, t);
    if CanAdd(selected) {
      AppendFreshKeepsDistinct(selected, t.id);
      ElementsAppend(selected, t.id);
    }
  }

  /** `handleRemove(id)`: keep every id other than `id`. */
  function Without(selected: seq<string>, id: string): seq<string>
  {
    Filter(selected, (x: string) => x != id)
  }

  /** Removing takes out every occurrence of `id`, keeps every other id as often and in
      the same order as before, changes nothing when `id` is absent, and is idempotent. */
  lemma RemoveProperties(selected: seq<string>, id: string)
    ensures id !in Without(selected, id)
    ensures IsSubsequence(Without(selected, id), selected)
    ensures forall x :: x != id ==> multiset(Without(selected, id))[x] == multiset(selected)[x]
    ensures id !in selected ==> Without(selected, id) == selected
    ensures Without(Without(selected, id), id) == Without(selected, id)
  {
    FilterAllPass(selected, (x: string) => x != id);
    FilterIdempotent(selected, (x: string) => x != id);
  }

  /** Removing keeps a well-formed selection well-formed, and a removed catalogue
      entry is offered again. */
  lemma RemoveKeepsWellFormed(selected: seq<string>, t: ToolDef)
    requires WellFormed(selected)
    requires t in AllTools
    ensures WellFormed(Without(selected, t.id))
    ensures t in Available(Without(selected, t.id))
  {
    FilterKeepsDistinct(selected, (x: string) => x != t.id);
  }

  /** "Reset Default" yields a well-formed selection: six distinct catalogue ids. */
  lemma DefaultIsWellFormed()
    ensures WellFormed(DefaultToolIds)
  {
    forall i | 0 <= i < 6 ensures DefaultToolIds[i] == AllTools[i].id && AllTools[i] in AllTools {
    }
    CatalogueIdsDistinct();
  }

  /** The two footer buttons. */
  datatype FooterButton = Cancel | SaveChanges

  /** What a footer button hands back to the host: the argument of `onSave`, if it is
      called, and whether `onClose` is called. */
  datatype FooterEffect = FooterEffect(onSave: Option<seq<string>>, onClose: bool)

  /** The dialog's working selection, seeded from the host's current tool ids. */
  class ToolbarEditor {
    var selected: seq<string>

    /** `useState(currentToolIds)`: the working copy starts as the host's list. */
    constructor (currentToolIds: seq<string>)
      ensures selected == currentToolIds
    {
      selected := currentToolIds;
    }

    method Add(id: string)
      modifies this
      ensures selected == Added(old(selected), id)
      ensures old(CanAdd(selected)) ==> selected == old(selected) + [id]
      ensures !old(CanAdd(selected)) ==> selected == old(selected)
    {
      if |selected| < MaxTools {
        selected := selected + [id];
      }
    }

    method Remove(id: string)
      modifies this
      ensures selected == Without(old(selected), id)
    {
      selected := Without(selected, id);
    }

    /** "Reset Default". */
    method ResetDefault()
      modifies this
      ensures selected == DefaultToolIds
    {
      selected := DefaultToolIds;
    }

    /** Pressing a footer button: "Save Changes" passes the working selection,
        unchanged, to `onSave` (and does not close the dialog itself); "Cancel" only
        calls `onClose`. Neither changes the working selection. */
    method Press(button: FooterButton) returns (effect: FooterEffect)
      ensures button == SaveChanges ==> effect == FooterEffect(Some(selected), false)
      ensures button == Cancel ==> effect == FooterEffect(None, true)
    {
      if button == SaveChanges {
        effect := FooterEffect(Some(selected), false);
      } else {
        effect := FooterEffect(None, true);
      }
    }
  }
}
