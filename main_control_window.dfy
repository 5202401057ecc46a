/**
  `MainControlWindow`: the ordered material table and the commands that change it, and the
  rules that push an item's `IsFrozen` flag into AutoCAD's layer table.

  The table is `materialItems`, a sequence of `MaterialItem` objects that the window
  rearranges in place. The layer table is a `LayerTable` object whose frozen flags are
  keyed by the folded layer name (layer-table lookups ignore case) together with the
  folded name of the current layer. Answers the user gives to confirmation boxes, the
  layers picked in the drawing and the preview colour read from the host are parameters.
*/
module MainControl {
  import opened Wrappers
  import opened TextFold
  import opened Sequences
  import opened Materials
  import opened CadRendering

  /** The values of a sequence of items, in order. */
  function Snapshot(items: seq<MaterialItem>): (r: seq<MaterialFields>)
    reads items
    ensures |r| == |items|
    ensures forall i :: 0 <= i < |items| ==> r[i] == items[i].Fields()
  {
    if items == [] then []
    else Snapshot(items[..|items| - 1]) + [items[|items| - 1].Fields()]
  }

  lemma SnapshotAppend(items: seq<MaterialItem>, x: MaterialItem)
    ensures Snapshot(items + [x]) == Snapshot(items) + [x.Fields()]
  {
    assert (items + [x])[..|items|] == items;
  }

  lemma LayerNamesAppend(fs: seq<MaterialFields>, f: MaterialFields)
    ensures LayerNames(fs + [f]) == LayerNames(fs) + [f.layerName]
  {
  }

  /** The table invariant: the item at index `i` has priority `i + 1`. */
  predicate Numbered(items: seq<MaterialItem>)
    reads items
  {
    forall i :: 0 <= i < |items| ==> items[i].priority == i + 1
  }

  /** Values whose priorities are their positions plus one. */
  predicate NumberedFields(fs: seq<MaterialFields>) {
    forall i :: 0 <= i < |fs| ==> fs[i].priority == i + 1
  }

  lemma NumberedSnapshot(items: seq<MaterialItem>)
    ensures Numbered(items) <==> NumberedFields(Snapshot(items))
  {
  }

  /** `RefreshPriorities` has run: each item was given its position plus one, and nothing else changed. */
  twostate predicate Renumbered(items: seq<MaterialItem>)
    reads items
  {
    forall i :: 0 <= i < |items| ==>
      && items[i].Fields() == old(items[i].Fields()).(priority := i + 1)
      && items[i].notifications == old(items[i].notifications) + ["Priority"]
  }

  // ---------------------------------------------------------------- merging picked layers

  /** One name's contribution to the merge: nothing when `listed` has it already, ignoring case. */
  function Step(listed: seq<string>, name: string): (r: seq<string>)
    ensures r == [] <==> AnyEqualsIgnoreCase(listed, name)
    ensures r != [] ==> r == [name]
  {
    if AnyEqualsIgnoreCase(listed, name) then [] else [name]
  }

  /**
    The layer names `PickLayers_Click` adds to a table listing `listed`: each picked name in
    turn, unless a name equal to it ignoring case is already listed or was added before it.
  */
  function Added(listed: seq<string>, picked: seq<string>): (r: seq<string>)
    ensures forall x :: x in r ==> x in picked && !AnyEqualsIgnoreCase(listed, x)
    ensures forall i, j :: 0 <= i < j < |r| ==> !EqualsIgnoreCase(r[i], r[j])
  {
    if picked == [] then []
    else
      var n := |picked| - 1;
      var prev := Added(listed, picked[..n]);
      if AnyEqualsIgnoreCase(listed + prev, picked[n]) then prev
      else
        assert forall x :: x in listed ==> x in listed + prev;
        assert forall i :: 0 <= i < |prev| ==> prev[i] in listed + prev;
        prev + [picked[n]]
  }

  /** The merge takes one picked name at a time. */
  lemma AddedStep(listed: seq<string>, picked: seq<string>, j: nat)
    requires j < |picked|
    ensures Added(listed, picked[..j + 1]) == Added(listed, picked[..j]) + Step(listed + Added(listed, picked[..j]), picked[j])
  {
    assert picked[..j + 1][..j] == picked[..j];
    assert Added(listed, picked[..j]) + [] == Added(listed, picked[..j]);
  }

  /** After merging, every picked layer is listed, ignoring case. */
  lemma {:induction false} AddedCoversPicked(listed: seq<string>, picked: seq<string>)
    ensures forall x :: x in picked ==> AnyEqualsIgnoreCase(listed + Added(listed, picked), x)
  {
    if picked != [] {
      var n := |picked| - 1;
      var prev := Added(listed, picked[..n]);
      AddedCoversPicked(listed, picked[..n]);
      var r := Added(listed, picked);
      forall x | x in picked
        ensures AnyEqualsIgnoreCase(listed + r, x)
      {
        if x in picked[..n] {
          var w :| w in listed + prev && EqualsIgnoreCase(w, x);
          assert w in listed + r;
        } else {
          assert x == picked[n];
          if !AnyEqualsIgnoreCase(listed + prev, x) {
            assert x in listed + r;
          } else {
            var w :| w in listed + prev && EqualsIgnoreCase(w, x);
            assert w in listed + r;
          }
        }
      }
    }
  }

  /** Names that are all listed already add nothing. */
  lemma {:induction false} AddedNothingWhenListed(listed: seq<string>, picked: seq<string>)
    requires forall x :: x in picked ==> AnyEqualsIgnoreCase(listed, x)
    ensures Added(listed, picked) == []
  {
    if picked != [] {
      var n := |picked| - 1;
      AddedNothingWhenListed(listed, picked[..n]);
      assert listed + [] == listed;
    }
  }

  /** Picking the same layers again adds nothing. */
  lemma PickingAgainAddsNothing(listed: seq<string>, picked: seq<string>)
    ensures Added(listed + Added(listed, picked), picked) == []
  {
    AddedCoversPicked(listed, picked);
    AddedNothingWhenListed(listed + Added(listed, picked), picked);
  }

  /** The values of an item `PickLayers_Click` creates for `name` at position `priority`. */
  function NewItemFields(name: string, priority: int, preview: (CadColor, string) -> Rgb): MaterialFields {
    MaterialFields(name, priority, Some("Hatch"), Some("SOLID"), 1.0, true, false,
      ByLayerIndex, Some(ByLayerColor), Some(preview(ByLayerColor, name)))
  }

  /** The notifications a new item has raised: its initialiser's assignments, then `PreviewBrush`. */
  const NewItemNotifications: seq<string> :=
    ["LayerName", "Priority", "FillType", "PatternName", "IsFillLayer", "IsFrozen", "Scale", "CadColor", "PreviewBrush"]

  /** The object initialiser of `PickLayers_Click` followed by the `PreviewBrush` assignment. */
  method NewMaterialItem(name: string, priority: int, preview: (CadColor, string) -> Rgb) returns (item: MaterialItem)
    ensures fresh(item)
    ensures item.Fields() == NewItemFields(name, priority, preview)
    ensures item.notifications == NewItemNotifications
  {
    item := new MaterialItem();
    item.SetLayerName(name);
    item.SetPriority(priority);
    item.SetFillType(Some("Hatch"));
    item.SetPatternName(Some("SOLID"));
    assert item.notifications == ["LayerName", "Priority", "FillType", "PatternName"];
    item.SetIsFillLayer(true);
    item.SetIsFrozen(false);
    item.SetScale(1.0);
    item.SetCadColor(Some(ByLayerColor));
    item.SetPreviewBrush(Some(preview(ByLayerColor, name)));
  }

  /** The values of the items created for `names`, the first at position `n0`. */
  function NewItemsFor(names: seq<string>, n0: nat, preview: (CadColor, string) -> Rgb): (r: seq<MaterialFields>)
    ensures |r| == |names|
    ensures forall i :: 0 <= i < |names| ==> r[i] == NewItemFields(names[i], n0 + i + 1, preview)
  {
    seq(|names|, i requires 0 <= i < |names| => NewItemFields(names[i], n0 + i + 1, preview))
  }

  lemma NewItemsForAppend(a: seq<string>, b: seq<string>, n0: nat, preview: (CadColor, string) -> Rgb)
    ensures NewItemsFor(a + b, n0, preview) == NewItemsFor(a, n0, preview) + NewItemsFor(b, n0 + |a|, preview)
  {
  }

  lemma NewItemsForSingle(name: string, n0: nat, preview: (CadColor, string) -> Rgb)
    ensures NewItemsFor([name], n0, preview) == [NewItemFields(name, n0 + 1, preview)]
  {
  }

  /** The values of a table after a new item for `name` joins its end. */
  lemma AppendedItemFields(items: seq<MaterialItem>, x: MaterialItem, name: string, preview: (CadColor, string) -> Rgb)
    requires x.Fields() == NewItemFields(name, |items| + 1, preview)
    ensures Snapshot(items + [x]) == Snapshot(items) + NewItemsFor([name], |items|, preview)
  {
    SnapshotAppend(items, x);
    NewItemsForSingle(name, |items|, preview);
  }

  /** The notifications of a table after a new item joins its end. */
  lemma AppendedItemNotifications(items: seq<MaterialItem>, x: MaterialItem)
    requires x.notifications == NewItemNotifications
    ensures Notifications(items + [x]) == Notifications(items) + NewNotificationsFor(1)
  {
    NotificationsAppend(items, x);
    assert NewNotificationsFor(1) == [NewItemNotifications];
  }

  /** Each new item gets `Priority = Count + 1`, so merging into a numbered table leaves it numbered. */
  lemma MergeKeepsNumbering(fields0: seq<MaterialFields>, added: seq<string>, preview: (CadColor, string) -> Rgb)
    requires NumberedFields(fields0)
    ensures NumberedFields(fields0 + NewItemsFor(added, |fields0|, preview))
  {
  }

  /** The merge adds no layer already listed, nor the same layer twice, so listed layers stay distinct. */
  lemma MergeKeepsLayersDistinct(fields0: seq<MaterialFields>, picked: seq<string>, preview: (CadColor, string) -> Rgb)
    requires LayersDistinct(fields0)
    ensures LayersDistinct(fields0 + NewItemsFor(Added(LayerNames(fields0), picked), |fields0|, preview))
  {
    var names0 := LayerNames(fields0);
    var added := Added(names0, picked);
    var r := fields0 + NewItemsFor(added, |fields0|, preview);
    forall i, j | 0 <= i < j < |r|
      ensures !EqualsIgnoreCase(r[i].layerName, r[j].layerName)
    {
      if |fields0| <= j {
        var x := added[j - |fields0|];
        assert r[j].layerName == x && x in added;
        if i < |fields0| {
          assert r[i].layerName == names0[i] && names0[i] in names0;
        } else {
          assert r[i].layerName == added[i - |fields0|];
        }
      }
    }
  }

  /** Merging keeps the table numbered 1, 2, 3, ... and its layers distinct ignoring case. */
  lemma MergeKeepsTableInvariants(fields0: seq<MaterialFields>, picked: seq<string>, preview: (CadColor, string) -> Rgb)
    ensures var fields := fields0 + NewItemsFor(Added(LayerNames(fields0), picked), |fields0|, preview);
      && (NumberedFields(fields0) ==> NumberedFields(fields))
      && (LayersDistinct(fields0) ==> LayersDistinct(fields))
  {
    if NumberedFields(fields0) {
      MergeKeepsNumbering(fields0, Added(LayerNames(fields0), picked), preview);
    }
    if LayersDistinct(fields0) {
      MergeKeepsLayersDistinct(fields0, picked, preview);
    }
  }

  /** The notifications of `k` newly created items. */
  function NewNotificationsFor(k: nat): (r: seq<seq<string>>)
    ensures |r| == k && forall i :: 0 <= i < k ==> r[i] == NewItemNotifications
  {
    seq(k, _ => NewItemNotifications)
  }

  lemma NewNotificationsForAppend(k: nat, m: nat)
    ensures NewNotificationsFor(k + m) == NewNotificationsFor(k) + NewNotificationsFor(m)
  {
  }

  /**
    A table that held `items0`, with values `fields0`, notifications `notes0` and layer names
    `names0`, now holds `items` with values `fields`, notifications `notes` and layer names
    `names`: new items for `added` were appended, each with the defaults of `PickLayers_Click`.
  */
  predicate Merged(items: seq<MaterialItem>, fields: seq<MaterialFields>, notes: seq<seq<string>>, names: seq<string>,
                   items0: seq<MaterialItem>, fields0: seq<MaterialFields>, notes0: seq<seq<string>>,
                   names0: seq<string>, added: seq<string>, preview: (CadColor, string) -> Rgb)
  {
    && |items| == |items0| + |added| && items[..|items0|] == items0
    && fields == fields0 + NewItemsFor(added, |items0|, preview)
    && notes == notes0 + NewNotificationsFor(|added|)
    && names == names0 + added
  }

  /** Appending the item for one more name extends a merge by that name. */
  lemma MergedAppend(items: seq<MaterialItem>, fields: seq<MaterialFields>, notes: seq<seq<string>>, names: seq<string>,
                     items0: seq<MaterialItem>, fields0: seq<MaterialFields>, notes0: seq<seq<string>>,
                     names0: seq<string>, added: seq<string>, x: MaterialItem, name: string,
                     preview: (CadColor, string) -> Rgb)
    requires Merged(items, fields, notes, names, items0, fields0, notes0, names0, added, preview)
    ensures Merged(items + [x], fields + NewItemsFor([name], |items|, preview), notes + NewNotificationsFor(1),
      names + [name], items0, fields0, notes0, names0, added + [name], preview)
  {
    NewItemsForAppend(added, [name], |items0|, preview);
    AppendAssoc(fields0, NewItemsFor(added, |items0|, preview), NewItemsFor([name], |items0| + |added|, preview));
    NewNotificationsForAppend(|added|, 1);
    AppendAssoc(notes0, NewNotificationsFor(|added|), NewNotificationsFor(1));
    AppendAssoc(names0, added, [name]);
    assert (items + [x])[..|items0|] == items[..|items0|];
  }

  /** The notifications each item has raised, in order. */
  function Notifications(items: seq<MaterialItem>): (r: seq<seq<string>>)
    reads items
    ensures |r| == |items|
    ensures forall i :: 0 <= i < |items| ==> r[i] == items[i].notifications
  {
    if items == [] then []
    else Notifications(items[..|items| - 1]) + [items[|items| - 1].notifications]
  }

  lemma NotificationsAppend(items: seq<MaterialItem>, x: MaterialItem)
    ensures Notifications(items + [x]) == Notifications(items) + [x.notifications]
  {
    assert (items + [x])[..|items|] == items;
  }

  // ---------------------------------------------------------------- the fill filter

  /** `MaterialItems.Where(x => x.IsFillLayer)`. */
  function FillLayerItems(fs: seq<MaterialFields>): (r: seq<MaterialFields>)
    ensures |r| <= |fs|
    ensures forall x :: x in r <==> x in fs && x.isFillLayer
  {
    if fs == [] then []
    else
      var n := |fs| - 1;
      var prev := FillLayerItems(fs[..n]);
      assert fs == fs[..n] + [fs[n]];
      if fs[n].isFillLayer then prev + [fs[n]] else prev
  }

  /** The filter keeps list order: filtering a concatenation filters each part. */
  lemma {:induction false} FillLayerItemsConcat(a: seq<MaterialFields>, b: seq<MaterialFields>)
    ensures FillLayerItems(a + b) == FillLayerItems(a) + FillLayerItems(b)
  {
    if b == [] {
      assert a + b == a;
    } else {
      var n := |b| - 1;
      assert (a + b)[..|a + b| - 1] == a + b[..n];
      FillLayerItemsConcat(a, b[..n]);
    }
  }

  /** A drop moves an item: both items are given, they differ, and both are in the table. */
  predicate DropMoves(dropped: MaterialItem?, target: MaterialItem?, items: seq<MaterialItem>) {
    dropped != null && target != null && dropped != target && dropped in items && target in items
  }

  /** A drop whose target is not in the table: `Move` removes the dropped item and then throws. */
  predicate DropLoses(dropped: MaterialItem?, target: MaterialItem?, items: seq<MaterialItem>) {
    dropped != null && target != null && dropped != target && dropped in items && target !in items
  }

  // ---------------------------------------------------------------- the layer table

  /** AutoCAD's layer table: frozen flags keyed by folded layer name, and the current layer's folded name. */
  class LayerTable {
    var frozen: map<string, bool>
    var current: string

    constructor (frozen: map<string, bool>, current: string)
      ensures this.frozen == frozen && this.current == current
    {
      this.frozen := frozen;
      this.current := current;
    }
  }

  /** `ApplyLayerStates_Click`: each listed layer that exists takes its item's flag, later items winning. */
  function AppliedFrozen(frozen: map<string, bool>, fs: seq<MaterialFields>): (r: map<string, bool>)
    ensures r.Keys == frozen.Keys
  {
    if fs == [] then frozen
    else
      var n := |fs| - 1;
      var prev := AppliedFrozen(frozen, fs[..n]);
      var key := Fold(fs[n].layerName);
      if key in prev then prev[key := fs[n].isFrozen] else prev
  }

  /** A layer that no item names keeps its flag. */
  lemma {:induction false} AppliedFrozenUntouched(frozen: map<string, bool>, fs: seq<MaterialFields>, key: string)
    requires key in frozen
    requires forall i :: 0 <= i < |fs| ==> Fold(fs[i].layerName) != key
    ensures AppliedFrozen(frozen, fs)[key] == frozen[key]
  {
    if fs != [] {
      AppliedFrozenUntouched(frozen, fs[..|fs| - 1], key);
    }
  }

  /**
    An existing layer takes the flag of the last item naming it, ignoring case; there is no
    current-layer guard, so the current layer can be frozen this way.
  */
  lemma {:induction false} AppliedFrozenLastWins(frozen: map<string, bool>, fs: seq<MaterialFields>, i: nat)
    requires i < |fs| && Fold(fs[i].layerName) in frozen
    requires forall j :: i < j < |fs| ==> Fold(fs[j].layerName) != Fold(fs[i].layerName)
    ensures AppliedFrozen(frozen, fs)[Fold(fs[i].layerName)] == fs[i].isFrozen
  {
    var n := |fs| - 1;
    if i < n {
      AppliedFrozenLastWins(frozen, fs[..n], i);
    }
  }

  // ---------------------------------------------------------------- the window

  class MainControlWindow {
    var materialItems: seq<MaterialItem>

    /** The collection never holds the same item twice. */
    predicate Valid()
      reads this
    {
      Distinct(materialItems)
    }

    function ListedNames(): seq<string>
      reads this, materialItems
    {
      LayerNames(Snapshot(materialItems))
    }

    /** The window starts with an empty table (`InitializeTestData` only renumbers). */
    constructor ()
      ensures Valid() && materialItems == []
    {
      materialItems := [];
    }

    /** `RefreshPriorities`: numbers the items 1, 2, 3, ... in list order. */
    method RefreshPriorities()
      requires Valid()
      modifies materialItems
      ensures Numbered(materialItems)
      ensures Renumbered(materialItems)
    {
      for i := 0 to |materialItems|
        invariant forall k :: 0 <= k < i ==>
          && materialItems[k].Fields() == old(materialItems[k].Fields()).(priority := k + 1)
          && materialItems[k].notifications == old(materialItems[k].notifications) + ["Priority"]
        invariant forall k :: i <= k < |materialItems| ==>
          materialItems[k].Fields() == old(materialItems[k].Fields())
          && materialItems[k].notifications == old(materialItems[k].notifications)
      {
        materialItems[i].SetPriority(i + 1);
      }
    }

    /**
      `DataGrid_Drop`: when both items are given and differ, the dropped item moves to the
      target's position and the table is renumbered. `moveFailed` reports the exception
      `Move` raises when one of them is not in the table. `ObservableCollection.MoveItem`
      reads and removes the item at the old index before inserting it at the new one, so a
      missing target throws only after the dropped item has left the table, which is then not
      renumbered; a missing dropped item throws before anything changes.
    */
    method Drop(dropped: MaterialItem?, target: MaterialItem?) returns (moveFailed: bool)
      requires Valid()
      modifies this, materialItems
      ensures Valid()
      ensures moveFailed <==>
        dropped != null && target != null && dropped != target &&
        (dropped !in old(materialItems) || target !in old(materialItems))
      ensures DropMoves(dropped, target, old(materialItems)) ==>
        materialItems == Moved(old(materialItems), IndexOf(old(materialItems), dropped), IndexOf(old(materialItems), target))
      ensures DropMoves(dropped, target, old(materialItems)) ==> Numbered(materialItems) && Renumbered(materialItems)
      ensures DropLoses(dropped, target, old(materialItems)) ==>
        materialItems == RemoveFirst(old(materialItems), dropped) && unchanged(old(materialItems))
      ensures !DropMoves(dropped, target, old(materialItems)) && !DropLoses(dropped, target, old(materialItems)) ==>
        materialItems == old(materialItems) && unchanged(old(materialItems))
    {
      moveFailed := false;
      if dropped != null && target != null && dropped != target {
        var oldIndex := IndexOf(materialItems, dropped);
        var newIndex := IndexOf(materialItems, target);
        if oldIndex < 0 {
          moveFailed := true;
          return;
        }
        if newIndex < 0 {
          RemoveFirstDistinct(materialItems, dropped);
          materialItems := materialItems[..oldIndex] + materialItems[oldIndex + 1..];
          moveFailed := true;
          return;
        }
        MoveItem(oldIndex, newIndex);
      }
    }

    /** `MaterialItems.Move(oldIndex, newIndex)` followed by `RefreshPriorities`. */
    method MoveItem(oldIndex: nat, newIndex: nat)
      requires Valid() && oldIndex < |materialItems| && newIndex < |materialItems|
      modifies this, materialItems
      ensures Valid()
      ensures materialItems == Moved(old(materialItems), oldIndex, newIndex)
      ensures Numbered(materialItems) && Renumbered(materialItems)
    {
      ghost var before := materialItems;
      MovedMembers(materialItems, oldIndex, newIndex);
      materialItems := Moved(materialItems, oldIndex, newIndex);
      assert forall i :: 0 <= i < |materialItems| ==> materialItems[i] in before;
      RefreshPriorities();
    }

    /**
      `DeleteSelectedItems`: with a non-empty selection, exactly the selected items leave the
      table, the rest keep their order and are renumbered; an empty selection does nothing.
    */
    method DeleteSelectedItems(selected: seq<MaterialItem>)
      requires Valid()
      modifies this, materialItems
      ensures Valid()
      ensures |selected| == 0 ==> materialItems == old(materialItems) && unchanged(old(materialItems))
      ensures |selected| > 0 ==>
        && materialItems == Sieve(old(materialItems), selected, false)
        && Numbered(materialItems) && Renumbered(materialItems)
    {
      if |selected| > 0 {
        RemoveAll(selected);
        RefreshPriorities();
      }
    }

    /** The removal loop of `DeleteSelectedItems`: `MaterialItems.Remove(item)` for each selected item. */
    method RemoveAll(selected: seq<MaterialItem>)
      requires Valid()
      modifies this
      ensures Valid()
      ensures materialItems == Sieve(old(materialItems), selected, false)
      ensures forall i :: 0 <= i < |materialItems| ==> materialItems[i] in old(materialItems)
    {
      ghost var items0 := materialItems;
      SieveAllOut(items0, selected[..0]);
      for j := 0 to |selected|
        invariant materialItems == Sieve(items0, selected[..j], false)
      {
        RemoveFromSieve(items0, selected[..j], selected[j]);
        assert selected[..j + 1] == selected[..j] + [selected[j]];
        materialItems := RemoveFirst(materialItems, selected[j]);
      }
      assert selected[..|selected|] == selected;
      SieveDistinct(items0, selected, false);
      assert forall i :: 0 <= i < |materialItems| ==> materialItems[i] in materialItems;
    }

    /** `MenuClearAll_Click`: a non-empty table is emptied when the user confirms. */
    method ClearAll(confirmed: bool)
      requires Valid()
      modifies this
      ensures Valid()
      ensures if old(|materialItems|) > 0 && confirmed then materialItems == [] else materialItems == old(materialItems)
    {
      if |materialItems| > 0 && confirmed {
        materialItems := [];
        RefreshPriorities();
      }
    }

    /** The merge loop has so far appended new items for `added`, as `Merged` describes. */
    predicate MergedSoFar(items0: seq<MaterialItem>, fields0: seq<MaterialFields>, notes0: seq<seq<string>>,
                          names0: seq<string>, added: seq<string>, preview: (CadColor, string) -> Rgb)
      reads this, materialItems
    {
      Merged(materialItems, Snapshot(materialItems), Notifications(materialItems), ListedNames(),
        items0, fields0, notes0, names0, added, preview)
    }

    /**
      The merge loop of `PickLayers_Click`: the names `Added` selects are appended, in order, as
      new items with the command's defaults and `Priority = Count + 1`; existing items are untouched.
    */
    method MergePickedLayers(picked: seq<string>, preview: (CadColor, string) -> Rgb)
      requires Valid()
      modifies this
      ensures Valid()
      ensures old(|materialItems|) <= |materialItems| && materialItems[..old(|materialItems|)] == old(materialItems)
      ensures Snapshot(materialItems) ==
        old(Snapshot(materialItems)) + NewItemsFor(Added(old(ListedNames()), picked), old(|materialItems|), preview)
      ensures Notifications(materialItems) ==
        old(Notifications(materialItems)) + NewNotificationsFor(|Added(old(ListedNames()), picked)|)
      ensures old(Numbered(materialItems)) ==> Numbered(materialItems)
      ensures old(LayersDistinct(Snapshot(materialItems))) ==> LayersDistinct(Snapshot(materialItems))
    {
      ghost var names0 := ListedNames();
      ghost var items0 := materialItems;
      ghost var fields0 := Snapshot(materialItems);
      ghost var notes0 := Notifications(materialItems);
      ghost var added: seq<string> := [];
      NumberedSnapshot(items0);
      assert materialItems[..|items0|] == items0;
      for j := 0 to |picked|
        invariant Valid()
        invariant added == Added(names0, picked[..j])
        invariant MergedSoFar(items0, fields0, notes0, names0, added, preview)
      {
        AddedStep(names0, picked, j);
        MergeOne(picked[j], preview, items0, fields0, notes0, names0, added);
        added := added + Step(names0 + added, picked[j]);
      }
      assert picked[..|picked|] == picked;
      NumberedSnapshot(materialItems);
      MergeKeepsTableInvariants(fields0, picked, preview);
    }

    /** One pass of the merge loop: the layer is added unless it is already listed, ignoring case. */
    method MergeOne(layerName: string, preview: (CadColor, string) -> Rgb, ghost items0: seq<MaterialItem>,
                    ghost fields0: seq<MaterialFields>, ghost notes0: seq<seq<string>>, ghost names0: seq<string>,
                    ghost added: seq<string>)
      requires Valid() && MergedSoFar(items0, fields0, notes0, names0, added, preview)
      modifies this
      ensures Valid() && MergedSoFar(items0, fields0, notes0, names0, added + Step(names0 + added, layerName), preview)
    {
      assert ListedNames() == names0 + added;
      if AnyEqualsIgnoreCase(ListedNames(), layerName) {
        assert added + Step(names0 + added, layerName) == added;
        return;
      }
      assert Step(names0 + added, layerName) == [layerName];
      ghost var items, fields, notes, names := materialItems, Snapshot(materialItems), Notifications(materialItems), ListedNames();
      var newItem := AppendNewItem(layerName, preview);
      assert Snapshot(items) == fields && Notifications(items) == notes;
      AppendedItemFields(items, newItem, layerName, preview);
      AppendedItemNotifications(items, newItem);
      LayerNamesAppend(fields, newItem.Fields());
      MergedAppend(items, fields, notes, names, items0, fields0, notes0, names0, added, newItem, layerName, preview);
    }

    /** The `Add` of `PickLayers_Click`: a new item with the command's defaults joins the end of the table. */
    method AppendNewItem(layerName: string, preview: (CadColor, string) -> Rgb) returns (newItem: MaterialItem)
      requires Valid()
      modifies this
      ensures Valid()
      ensures materialItems == old(materialItems) + [newItem] && fresh(newItem)
      ensures newItem.Fields() == NewItemFields(layerName, |materialItems|, preview)
      ensures newItem.notifications == NewItemNotifications
    {
      newItem := NewMaterialItem(layerName, |materialItems| + 1, preview);
      DistinctConcat(materialItems, [newItem]);
      materialItems := materialItems + [newItem];
    }

    /**
      `RunFill_Click`: the fill is invoked with the fill-enabled items in list order, and only
      when there is at least one.
    */
    method RunFillClick(dwg: Drawing, host: Host) returns (invoked: bool)
      requires dwg.Valid()
      modifies dwg
      ensures dwg.Valid()
      ensures var fills := FillLayerItems(old(Snapshot(materialItems)));
        && (invoked <==> fills != [])
        && (invoked ==> dwg.State() == RunFillResult(old(dwg.State()), fills, host))
        && (!invoked ==> dwg.State() == old(dwg.State()))
    {
      invoked := false;
      if |materialItems| == 0 {
        return;
      }
      var selectedItems := FillLayerItems(Snapshot(materialItems));
      if |selectedItems| == 0 {
        return;
      }
      dwg.RunFill(selectedItems, host);
      invoked := true;
    }

    /** `ClearFills_Click`: clears the fills on every listed layer when the user confirms. */
    method ClearFillsClick(dwg: Drawing, confirmed: bool)
      requires dwg.Valid()
      modifies dwg
      ensures dwg.Valid()
      ensures if |materialItems| > 0 && confirmed then dwg.State() == Cleared(old(dwg.State()), old(ListedNames()))
        else dwg.State() == old(dwg.State())
    {
      if |materialItems| > 0 && confirmed {
        var layers := LayerNames(Snapshot(materialItems));
        dwg.ClearFillsOnLayers(layers);
      }
    }

    /** `RefreshLayer_Click`: re-fills one row's layer and reorders by the whole table. */
    method RefreshLayerClick(item: MaterialItem?, dwg: Drawing, host: Host)
      requires dwg.Valid()
      modifies dwg
      ensures dwg.Valid()
      ensures item != null ==>
        dwg.State() == RefreshSingleLayerResult(old(dwg.State()), old(item.Fields()), old(Snapshot(materialItems)), host)
      ensures item == null ==> dwg.State() == old(dwg.State())
    {
      if item != null {
        dwg.RefreshSingleLayer(item.Fields(), Snapshot(materialItems), host);
      }
    }

    /** `ApplyLayerStates_Click`: every listed layer that exists takes its item's `IsFrozen`. */
    method ApplyLayerStates(lt: LayerTable)
      modifies lt
      ensures lt.current == old(lt.current)
      ensures lt.frozen == AppliedFrozen(old(lt.frozen), old(Snapshot(materialItems)))
    {
      ghost var snap := Snapshot(materialItems);
      for i := 0 to |materialItems|
        invariant lt.current == old(lt.current)
        invariant lt.frozen == AppliedFrozen(old(lt.frozen), snap[..i])
      {
        assert snap[..i + 1][..i] == snap[..i];
        var item := materialItems[i];
        assert item.Fields() == snap[i];
        var key := Fold(item.layerName);
        if key in lt.frozen {
          lt.frozen := lt.frozen[key := item.isFrozen];
        }
      }
      assert snap[..|materialItems|] == snap;
    }
  }

  /**
    `SyncSingleLayerFrozenState(item)`: freezing the current layer is refused and the item's
    flag is rolled back to false; otherwise an existing layer takes the item's flag; a missing
    layer changes nothing. The current layer is never frozen by it.
  */
  method SyncItemFrozenState(item: MaterialItem, lt: LayerTable)
    modifies item, lt
    ensures lt.current == old(lt.current)
    ensures var key := Fold(old(item.layerName));
      if key !in old(lt.frozen) then
        && lt.frozen == old(lt.frozen)
        && item.Fields() == old(item.Fields()) && item.notifications == old(item.notifications)
      else if old(item.isFrozen) && key == lt.current then
        && lt.frozen == old(lt.frozen)
        && item.Fields() == old(item.Fields()).(isFrozen := false)
        && item.notifications == old(item.notifications) + ["IsFrozen"]
      else
        && lt.frozen == old(lt.frozen)[key := old(item.isFrozen)]
        && item.Fields() == old(item.Fields()) && item.notifications == old(item.notifications)
    ensures lt.current in lt.frozen && lt.frozen[lt.current] ==> lt.current in old(lt.frozen) && old(lt.frozen[lt.current])
  {
    var key := Fold(item.layerName);
    if key in lt.frozen {
      if item.isFrozen && key == lt.current {
        item.SetIsFrozen(false);
      } else if lt.frozen[key] != item.isFrozen {
        lt.frozen := lt.frozen[key := item.isFrozen];
      }
    }
  }

  /** `SyncSingleLayerFrozenState(layerName, isFrozen)`: sets an existing layer's flag, with no guard. */
  method SyncLayerFrozenState(layerName: string, isFrozen: bool, lt: LayerTable)
    modifies lt
    ensures lt.current == old(lt.current)
    ensures Fold(layerName) in old(lt.frozen) ==> lt.frozen == old(lt.frozen)[Fold(layerName) := isFrozen]
    ensures Fold(layerName) !in old(lt.frozen) ==> lt.frozen == old(lt.frozen)
  {
    var key := Fold(layerName);
    if key in lt.frozen {
      lt.frozen := lt.frozen[key := isFrozen];
    }
  }

  /**
    Editing `IsFrozen` in the table: the setter raises "IsFrozen", whose handler syncs the
    layer. Freezing the current layer is rolled back, raising "IsFrozen" a second time and
    leaving the table as it was; otherwise an existing layer takes the new value and a
    missing one changes nothing. No other layer and no other field of the item changes.
  */
  method EditIsFrozen(item: MaterialItem, value: bool, lt: LayerTable)
    modifies item, lt
    ensures lt.current == old(lt.current)
    ensures var key := Fold(item.layerName);
      && item.layerName == old(item.layerName)
      && (key in lt.frozen && key != lt.current ==> lt.frozen[key] == item.isFrozen == value)
      && (key in lt.frozen && key == lt.current ==> !item.isFrozen)
      && (key !in old(lt.frozen) ==> lt.frozen == old(lt.frozen))
    ensures var key := Fold(old(item.layerName));
      if key in old(lt.frozen) && value && key == lt.current then
        && lt.frozen == old(lt.frozen)
        && item.Fields() == old(item.Fields()).(isFrozen := false)
        && item.notifications == old(item.notifications) + ["IsFrozen", "IsFrozen"]
      else
        && lt.frozen == (if key in old(lt.frozen) then old(lt.frozen)[key := value] else old(lt.frozen))
        && item.Fields() == old(item.Fields()).(isFrozen := value)
        && item.notifications == old(item.notifications) + ["IsFrozen"]
    ensures lt.current in lt.frozen && lt.frozen[lt.current] ==> lt.current in old(lt.frozen) && old(lt.frozen[lt.current])
  {
    item.SetIsFrozen(value);
    SyncItemFrozenState(item, lt);
  }
}
