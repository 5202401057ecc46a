# StyleMaster material table and hatch rendering, in Dafny

StyleMaster is an AutoCAD plug-in that fills closed boundaries with hatches, one style per
layer. The user keeps an ordered **material table** in the main window: each row
(`MaterialItem`) names a layer, its priority (its position plus one), a hatch pattern, a
scale, a colour and two flags (fill this layer, freeze this layer). The window's commands
edit the table (pick layers, drag a row, delete rows, clear the table), push the freeze
flags into AutoCAD's layer table, and call the **rendering service**
(`CadRenderingService`). For each listed layer the service erases the old fills, hatches
every boundary entity on that layer, and reorders the paint order so that items with lower
priority numbers paint on top. A separate **pattern selector** window lists the `.pat`
pattern files. It filters them by a search text, ignoring case, and shows favourites first
and then by name.

The project is made of these modules:

- `Materials` (`material_item.dfy`): the `MaterialItem` class with its property setters and
  change notifications.
- `MainControl` (`main_control_window.dfy`): the `MainControlWindow` class, the table of items
  it rearranges in place, its commands, and AutoCAD's layer table as a `LayerTable` object.
- `CadRendering` (`cad_rendering_service.dfy`): the drawing as a value (`Db`), each service
  operation as a function on it, the `Drawing` class whose methods update it in place, and
  the properties of each operation.
- `PatternSelector` (`pattern_selector_window.dfy`): loading, filtering and ordering patterns,
  and the selector window.
- Shared modules:
  - `TextFold`: case-insensitive comparison, `Contains` and ordinal name order.
  - `Sequences`: index, remove, move and the order-keeping filter `Sieve`.
  - `Sorting`: a stable insertion sort standing for LINQ's `OrderBy`.
  - `DrawOrder`: the meaning of `DrawOrderTable.MoveToTop`, and of moving several groups
    to the top one after another.

How the drawing is modelled:

- An entity's id is its position in the block table record.
- Erasing an entity only marks its id. AutoCAD keeps erased objects, and enumerating a block
  table record skips them.
- The paint order is a sequence listing every id once.
- Two things depend on the host, and a `Host` value gives them: whether AutoCAD accepts a
  pattern at a scale, and whether a boundary's hatch loop evaluates.

## Model

| member | source | states |
|---|---|---|
| Materials.MaterialItem.constructor | StyleMaster/Models/MaterialItem.cs:15-25 | A new item has scale 1.0, is a fill layer, is not frozen, and has colour index 256 (ByLayer). Its other fields are empty or null, and it has raised no notification. |
| Materials.MaterialItem.SetLayerName | StyleMaster/Models/MaterialItem.cs:27 | Stores the layer name, changes no other property, and raises "LayerName" once. |
| Materials.MaterialItem.SetPriority | StyleMaster/Models/MaterialItem.cs:28 | Stores the priority, changes nothing else, and raises "Priority" once. |
| Materials.MaterialItem.SetFillType | StyleMaster/Models/MaterialItem.cs:29 | Stores the fill type, changes nothing else, and raises "FillType" once. |
| Materials.MaterialItem.SetPatternName | StyleMaster/Models/MaterialItem.cs:30 | Stores the pattern name, changes nothing else, and raises "PatternName" once. |
| Materials.MaterialItem.SetScale | StyleMaster/Models/MaterialItem.cs:31 | Stores the scale, changes nothing else, and raises "Scale" once. |
| Materials.MaterialItem.SetIsFillLayer | StyleMaster/Models/MaterialItem.cs:32 | Stores the fill flag, changes nothing else, and raises "IsFillLayer" once. |
| Materials.MaterialItem.SetIsFrozen | StyleMaster/Models/MaterialItem.cs:33 | Stores the freeze flag, changes nothing else, and raises "IsFrozen" once. |
| Materials.MaterialItem.SetColorIndex | StyleMaster/Models/MaterialItem.cs:35 | Stores the colour index, changes nothing else, and raises "ColorIndex" once. |
| Materials.MaterialItem.SetCadColor | StyleMaster/Models/MaterialItem.cs:38-47 | Stores the colour. A non-null colour also replaces the colour index with the colour's own; null keeps the old index. Only "CadColor" is raised. |
| Materials.MaterialItem.SetPreviewBrush | StyleMaster/Models/MaterialItem.cs:50 | Stores the preview brush, changes nothing else, and raises "PreviewBrush" once. |
| Materials.SyncedColorIndex | StyleMaster/Models/MaterialItem.cs:44 | The index after assigning a colour is that colour's index for a non-null colour, and the previous index for null. |
| Materials.LayerNames | StyleMaster/UI/MainControlWindow.xaml.cs:613 | One layer name per item, the i-th name being the i-th item's. |
| TextFold.FoldChar | StyleMaster/Services/CadRenderingService.cs:174 | Upper-case ASCII letters map to their lower-case letter and every other character to itself. The result is never an upper-case letter. |
| TextFold.Fold | StyleMaster/UI/PatternSelectorWindow.xaml.cs:68 | `ToLower` keeps the length and folds each character in place. |
| TextFold.FoldIdempotent | StyleMaster/UI/PatternSelectorWindow.xaml.cs:68 | Lower-casing twice gives the same as lower-casing once. |
| TextFold.ContainsIffOccurs | StyleMaster/UI/PatternSelectorWindow.xaml.cs:68 | `Contains` holds exactly when the query occurs at some position of the name. |
| TextFold.ContainsEmpty | StyleMaster/UI/PatternSelectorWindow.xaml.cs:67-68 | The empty query occurs in every name. |
| TextFold.NameLeTotal | StyleMaster/UI/PatternSelectorWindow.xaml.cs:73 | Of any two names, one may be shown before the other. |
| TextFold.NameLeTransitive | StyleMaster/UI/PatternSelectorWindow.xaml.cs:73 | The name order is transitive. |
| TextFold.NameLeAntisymmetric | StyleMaster/UI/PatternSelectorWindow.xaml.cs:73 | Two names that may each come before the other are equal. |
| Sequences.IndexOf | StyleMaster/UI/MainControlWindow.xaml.cs:417-418 | `IndexOf` is -1 exactly when the item is absent. Otherwise it is the first position holding the item. |
| Sequences.RemoveFirst | StyleMaster/UI/MainControlWindow.xaml.cs:594 | `Remove` of an absent item changes nothing. Otherwise it drops the first occurrence only. |
| Sequences.RemoveFirstDistinct | StyleMaster/UI/MainControlWindow.xaml.cs:420 | Removing an item from a table without duplicates leaves no duplicates and exactly the other items. |
| Sequences.Sieve | StyleMaster/UI/MainControlWindow.xaml.cs:592-595 | Keeps exactly the elements whose selection status is the one asked for, and is never longer than the input. |
| Sequences.RemoveFromSieve | StyleMaster/UI/MainControlWindow.xaml.cs:594 | Removing one more item from a filtered table equals filtering by the selection extended with that item. |
| Sequences.SieveKeepsOrder | StyleMaster/UI/MainControlWindow.xaml.cs:592-595 | Two surviving items keep their relative order. |
| Sequences.SieveSplits | StyleMaster/UI/MainControlWindow.xaml.cs:592-595 | The removed items and the surviving items together are exactly the items of the table. |
| Sequences.MovedIsPermutation | StyleMaster/UI/MainControlWindow.xaml.cs:420 | `Move(from, to)` keeps the length, puts the moved item at `to`, and rearranges the items. |
| Sequences.MovedMembers | StyleMaster/UI/MainControlWindow.xaml.cs:420 | A move keeps the same members and keeps a duplicate-free table duplicate-free. |
| Sequences.MovedRoundTrip | StyleMaster/UI/MainControlWindow.xaml.cs:420 | Moving back from `to` to `from` restores the table. |
| Sequences.MovedLeavesOthersInOrder | StyleMaster/UI/MainControlWindow.xaml.cs:420 | Leaving the moved item out, the table is the same before and after. |
| Sorting.InsertionSort | StyleMaster/Services/CadRenderingService.cs:190 | The sorted list is a rearrangement of the input and has the same length. |
| Sorting.InsertionSortSorted | StyleMaster/Services/CadRenderingService.cs:190 | For any total preorder, every element may come before every later one. |
| Sorting.InsertionSortStable | StyleMaster/Services/CadRenderingService.cs:190 | For every key, the elements tied with it appear in the same order before and after sorting. |
| DrawOrder.MoveToTopIsPermutation | StyleMaster/Services/CadRenderingService.cs:200 | `MoveToTop` rearranges the paint order: the same ids, the same length, and no id listed twice. |
| DrawOrder.MoveToTopPutsIdsAbove | StyleMaster/Services/CadRenderingService.cs:200 | Every moved id ends painted after every id that was not moved. |
| DrawOrder.MoveToTopKeepsOrder | StyleMaster/Services/CadRenderingService.cs:200 | Two ids that are both moved, or both not moved, keep their relative paint order. |
| DrawOrder.MoveNewestToTop | StyleMaster/Services/CadRenderingService.cs:150-154 | Moving a just-appended hatch to the top leaves the paint order as it is, since the hatch is already last. |
| DrawOrder.MoveGroupsIsPermutation | StyleMaster/Services/CadRenderingService.cs:191-201 | Moving groups to the top one after another rearranges the paint order without duplicating an id. |
| DrawOrder.MoveGroupsMembers | StyleMaster/Services/CadRenderingService.cs:191-201 | The paint order keeps the same ids. |
| DrawOrder.LaterGroupAbove | StyleMaster/Services/CadRenderingService.cs:191-201 | When the groups are disjoint, an id of a later group ends above an id of an earlier group. |
| DrawOrder.GroupKeepsOrder | StyleMaster/Services/CadRenderingService.cs:191-201 | Two ids that every group holds both or neither of keep their relative order. Groups may overlap. |
| DrawOrder.UngroupedKeepOrder | StyleMaster/Services/CadRenderingService.cs:191-201 | Two ids in no group keep their relative order. |
| DrawOrder.UngroupedBelow | StyleMaster/Services/CadRenderingService.cs:191-201 | An id in no group ends below every id of every group. Groups may overlap. |
| CadRendering.GetEntitiesOnLayer | StyleMaster/Services/CadRenderingService.cs:209-227 | An id is returned exactly when the entity is live, on the layer ignoring case, and not a hatch, raster image or block reference. The ids come in block-record order. |
| CadRendering.SelectBelowIgnoresOrder | StyleMaster/Services/CadRenderingService.cs:212 | Enumerating the block table record does not depend on the paint order. |
| CadRendering.FillsOnLayer | StyleMaster/Services/CadRenderingService.cs:194-199 | An id is collected exactly when the entity is a live hatch or raster image on the layer, ignoring case. |
| CadRendering.ClearedErasesExactlyListedFills | StyleMaster/Services/CadRenderingService.cs:166-180 | After clearing, an entity is live exactly when it was live and is not a hatch or raster image on a listed layer (ignoring case). Entities and paint order are unchanged. |
| CadRendering.PatternOrDefault | StyleMaster/Services/CadRenderingService.cs:102 | The item's pattern when it is non-empty, "SOLID" when it is null or empty, and never empty. |
| CadRendering.ScaleOrDefault | StyleMaster/Services/CadRenderingService.cs:120 | The item's scale when positive, 1.0 otherwise, and always positive. |
| CadRendering.HatchFor | StyleMaster/Services/CadRenderingService.cs:117-130 | The hatch uses the chosen pattern and scale when the host accepts them, otherwise SOLID at 1.0. It always gets the item's colour and the boundary. |
| CadRendering.CreatedHatchOutcome | StyleMaster/Services/CadRenderingService.cs:93-161 | `CreateHatch` appends exactly one hatch, on the item's layer, painted last. It is live exactly when its loop evaluates and is erased otherwise. The drawing stays well-formed. |
| CadRendering.AttemptsFor | StyleMaster/Services/CadRenderingService.cs:46-49 | One hatch attempt per boundary, the i-th against the i-th boundary. |
| CadRendering.Attempts | StyleMaster/Services/CadRenderingService.cs:43-50 | Every attempt pairs a listed item with a live boundary on that item's layer. |
| CadRendering.AttemptsConcat | StyleMaster/Services/CadRenderingService.cs:43-50 | The attempts for two item lists in a row are those of the first list followed by those of the second, so each item contributes exactly its own boundaries, in list order. |
| CadRendering.AppendAttemptsEffect | StyleMaster/Services/CadRenderingService.cs:43-50 | After the attempts, the entities are the old ones plus one hatch per attempt, and the new ids follow the old paint order. The erased set grows by exactly the ids whose loops fail. |
| CadRendering.FailedIds | StyleMaster/Services/CadRenderingService.cs:142-146 | The id of an attempt is erased exactly when its loop fails, and only ids of attempts are erased. |
| CadRendering.AppendAttemptsKeepsBoundaries | StyleMaster/Services/CadRenderingService.cs:113 | Creating hatches never adds, removes or changes a boundary entity. |
| CadRendering.ClearedKeepsBoundaries | StyleMaster/Services/CadRenderingService.cs:173 | Clearing erases only fills, so every boundary entity stays as it was. |
| CadRendering.BoundariesKept | StyleMaster/Services/CadRenderingService.cs:209-227 | A drawing that keeps the boundaries yields the same boundary ids for every layer. |
| CadRendering.AttemptsKept | StyleMaster/Services/CadRenderingService.cs:43-50 | A drawing that keeps the boundaries yields the same hatch attempts. |
| CadRendering.HigherPriorityFirstIsTotalPreorder | StyleMaster/Services/CadRenderingService.cs:190 | Ordering by descending priority is a total preorder. |
| CadRendering.SortByPriorityDesc | StyleMaster/Services/CadRenderingService.cs:190 | `OrderByDescending(Priority)` rearranges the items so priorities never increase. Items with equal priority keep their order. |
| CadRendering.FillGroups | StyleMaster/Services/CadRenderingService.cs:191-199 | The i-th group moved is the set of fills on the i-th visited item's layer. |
| CadRendering.ReorderedWellFormed | StyleMaster/Services/CadRenderingService.cs:185-202 | Reordering changes only the paint order, keeps it a rearrangement of all ids, and keeps every boundary. |
| CadRendering.ReorderPutsLowerPriorityOnTop | StyleMaster/Services/CadRenderingService.cs:190-201 | With distinct layers, every fill of an item with a smaller priority number ends above every fill of an item with a larger one. |
| CadRendering.ReorderKeepsLayerOrder | StyleMaster/Services/CadRenderingService.cs:194-200 | Fills on the same layer, ignoring case, keep their relative paint order. This holds for any item list, even one that names a layer twice. |
| CadRendering.ReorderPutsListedFillsAboveTheRest | StyleMaster/Services/CadRenderingService.cs:190-201 | Every fill on a listed layer ends above every entity that is not a fill on a listed layer. This holds for any item list, even one that names a layer twice. |
| CadRendering.RunFillKeepsExisting | StyleMaster/Services/CadRenderingService.cs:248-279 | `RunFill` keeps every old entity and its liveness. It appends one hatch per boundary, visiting items by descending priority, and each is live exactly when its loop evaluates. |
| CadRendering.ExecuteFillClearsTargets | StyleMaster/Services/CadRenderingService.cs:25-58 | After `ExecuteFill` no fill that was on a listed layer is live. Every boundary is kept. |
| CadRendering.ExecuteFillReplacesFills | StyleMaster/Services/CadRenderingService.cs:25-58 | `ExecuteFill` keeps every old entity and appends one hatch per attempt, in attempt order. An old entity stays live exactly when it was live and is not a fill on a listed layer. A new hatch is live exactly when its loop evaluates. Every layer keeps the same boundaries, so running it again makes the same hatch attempts. |
| CadRendering.ExecuteFillHatches | StyleMaster/Services/CadRenderingService.cs:25-58 | The entities and liveness after `ExecuteFill`: the listed fills are erased, nothing else old changes, and each attempt adds a hatch that is live when its loop evaluates. |
| CadRendering.ClearThenAppend | StyleMaster/Services/CadRenderingService.cs:27-50 | Clearing listed layers and then hatching: the old entities lose exactly the fills on those layers, and each new hatch is live when its loop evaluates. |
| CadRendering.RefreshSingleLayerReplacesFills | StyleMaster/Services/CadRenderingService.cs:63-87 | `RefreshSingleLayer` erases exactly the old fills of the item's layer and keeps every other entity's liveness. It appends one hatch per boundary on that layer, each live exactly when its loop evaluates. |
| CadRendering.FillStep | StyleMaster/Services/CadRenderingService.cs:264-274 | Boundaries found after earlier hatches are those of the original drawing. Skipping a layer with no boundaries is the same as hatching none. |
| CadRendering.MoveGroupsStep | StyleMaster/Services/CadRenderingService.cs:191-201 | One pass of the reorder loop moves the item's fills to the top, and does nothing when there are none. |
| CadRendering.Drawing.AppendEntity | StyleMaster/Services/CadRenderingService.cs:113 | The new entity gets the next id and is painted last. Nothing else changes. |
| CadRendering.Drawing.Erase | StyleMaster/Services/CadRenderingService.cs:145 | Marks the id erased and changes nothing else. |
| CadRendering.Drawing.MoveToTop | StyleMaster/Services/CadRenderingService.cs:150-154 | The paint order becomes `MoveToTop` of the old one, and the drawing stays well-formed. |
| CadRendering.Drawing.ClearInternal | StyleMaster/Services/CadRenderingService.cs:166-180 | The loop leaves the drawing cleared of the listed layers' fills, as `ClearedErasesExactlyListedFills` characterises. |
| CadRendering.Drawing.CreateHatch | StyleMaster/Services/CadRenderingService.cs:93-161 | The drawing becomes the outcome `CreatedHatchOutcome` describes for that boundary. |
| CadRendering.Drawing.HatchBoundaries | StyleMaster/Services/CadRenderingService.cs:46-49 | The drawing is the old one after one attempt per boundary, in order. |
| CadRendering.Drawing.FillItems | StyleMaster/Services/CadRenderingService.cs:43-50 | The drawing is the old one after every item's attempts, in item order. Skipping layers with no boundaries changes nothing. |
| CadRendering.Drawing.RunFill | StyleMaster/Services/CadRenderingService.cs:248-279 | The drawing becomes the `RunFill` result, whose effect `RunFillKeepsExisting` states. |
| CadRendering.Drawing.ReorderDrawOrder | StyleMaster/Services/CadRenderingService.cs:185-202 | The paint order becomes the fills of each item's layer moved to the top, items visited by descending priority. Its ordering properties are the `Reorder…` lemmas. |
| CadRendering.Drawing.ExecuteFill | StyleMaster/Services/CadRenderingService.cs:25-58 | The drawing becomes: cleared, hatched in list order, then reordered. Its entities gain one hatch per attempt. An old entity stays live unless it is a fill on a listed layer. |
| CadRendering.Drawing.RefreshSingleLayer | StyleMaster/Services/CadRenderingService.cs:63-87 | The drawing becomes: one layer cleared and re-hatched, then all items reordered. The effect is stated by `RefreshSingleLayerReplacesFills`. |
| CadRendering.Drawing.ClearFillsOnLayers | StyleMaster/Services/CadRenderingService.cs:229-243 | The drawing is cleared of the fills on the given layers. |
| MainControl.Step | StyleMaster/UI/MainControlWindow.xaml.cs:481-482 | A picked name adds nothing exactly when some listed name equals it ignoring case. Otherwise it adds itself. |
| MainControl.Added | StyleMaster/UI/MainControlWindow.xaml.cs:479-504 | Every added name was picked and was not listed. No two added names are equal ignoring case. |
| MainControl.AddedStep | StyleMaster/UI/MainControlWindow.xaml.cs:479-482 | The merge takes the picked names one at a time, each checked against the table as it grows. |
| MainControl.AddedCoversPicked | StyleMaster/UI/MainControlWindow.xaml.cs:479-504 | After merging, every picked layer is listed, ignoring case. |
| MainControl.AddedNothingWhenListed | StyleMaster/UI/MainControlWindow.xaml.cs:481-482 | Picking only layers that are already listed adds nothing. |
| MainControl.PickingAgainAddsNothing | StyleMaster/UI/MainControlWindow.xaml.cs:479-504 | Picking the same layers a second time adds nothing (the merge is idempotent). |
| MainControl.NewMaterialItem | StyleMaster/UI/MainControlWindow.xaml.cs:484-502 | A new row has the picked name, the given priority, "Hatch", "SOLID", scale 1.0, fill on, not frozen, the ByLayer colour with index 256, and the preview colour. |
| MainControl.NewItemsFor | StyleMaster/UI/MainControlWindow.xaml.cs:487 | The k-th new row gets priority `Count + k + 1` and the command's defaults. |
| MainControl.MergeKeepsNumbering | StyleMaster/UI/MainControlWindow.xaml.cs:487 | Appending new rows to a table numbered 1, 2, 3, ... leaves it numbered that way. |
| MainControl.MergeKeepsLayersDistinct | StyleMaster/UI/MainControlWindow.xaml.cs:479-503 | The merge adds no layer already listed and no layer twice, ignoring case, so a table with distinct layers keeps them distinct. |
| MainControl.MergeKeepsTableInvariants | StyleMaster/UI/MainControlWindow.xaml.cs:479-504 | Merging keeps a table numbered 1, 2, 3, ... and keeps its layers distinct, ignoring case. |
| MainControl.FillLayerItems | StyleMaster/UI/MainControlWindow.xaml.cs:519-522 | An item is selected exactly when it is in the table and has `IsFillLayer`. |
| MainControl.FillLayerItemsConcat | StyleMaster/UI/MainControlWindow.xaml.cs:519-522 | The filter keeps table order: filtering a concatenation filters each part. |
| MainControl.AppliedFrozen | StyleMaster/UI/MainControlWindow.xaml.cs:694-702 | Applying the flags never creates or removes a layer. |
| MainControl.AppliedFrozenUntouched | StyleMaster/UI/MainControlWindow.xaml.cs:697 | A layer that no item names keeps its flag. |
| MainControl.AppliedFrozenLastWins | StyleMaster/UI/MainControlWindow.xaml.cs:695-701 | An existing layer takes the flag of the last item naming it, ignoring case. |
| MainControl.MainControlWindow.constructor | StyleMaster/UI/MainControlWindow.xaml.cs:38-51 | The window starts with an empty table. |
| MainControl.MainControlWindow.RefreshPriorities | StyleMaster/UI/MainControlWindow.xaml.cs:442-450 | Each item's priority becomes its position plus one, and each raises "Priority". Nothing else about the items or the table changes. |
| MainControl.MainControlWindow.Drop | StyleMaster/UI/MainControlWindow.xaml.cs:405-423 | Dropping one item on a different item moves the dropped item to the target's position and renumbers the table. If the dropped item is missing, `Move` throws and the table is unchanged. If only the target is missing, `Move` removes the dropped item before it throws, and the table is not renumbered. A null or identical pair does nothing. |
| MainControl.MainControlWindow.MoveItem | StyleMaster/UI/MainControlWindow.xaml.cs:420-421 | The table becomes `Moved(old, from, to)` and is renumbered. |
| MainControl.MainControlWindow.DeleteSelectedItems | StyleMaster/UI/MainControlWindow.xaml.cs:587-598 | With a non-empty selection, exactly the selected items leave and the rest keep their order and are renumbered. An empty selection changes nothing. |
| MainControl.MainControlWindow.RemoveAll | StyleMaster/UI/MainControlWindow.xaml.cs:592-595 | Removing each selected item in turn leaves exactly the unselected items, in order. |
| MainControl.MainControlWindow.ClearAll | StyleMaster/UI/MainControlWindow.xaml.cs:307-318 | A non-empty table is emptied when the user confirms. Otherwise it is unchanged. |
| MainControl.MainControlWindow.MergePickedLayers | StyleMaster/UI/MainControlWindow.xaml.cs:479-504 | The old rows stay unchanged at the front. One new row per name `Added` selects follows, in order, with the command's defaults, and each new row has raised its initialiser's notifications. A numbered table stays numbered, and distinct layers stay distinct. |
| MainControl.MainControlWindow.MergeOne | StyleMaster/UI/MainControlWindow.xaml.cs:481-503 | One pass of the merge loop extends the merge by the name exactly when it is not listed yet. |
| MainControl.MainControlWindow.AppendNewItem | StyleMaster/UI/MainControlWindow.xaml.cs:484-503 | A fresh row with priority `Count + 1` and the defaults joins the end of the table. |
| MainControl.MainControlWindow.RunFillClick | StyleMaster/UI/MainControlWindow.xaml.cs:515-542 | The fill runs exactly when some item has `IsFillLayer`, with those items in table order. Otherwise the drawing is untouched. |
| MainControl.MainControlWindow.ClearFillsClick | StyleMaster/UI/MainControlWindow.xaml.cs:603-622 | When the table is non-empty and the user confirms, the fills on every listed layer are cleared. Otherwise the drawing is untouched. |
| MainControl.MainControlWindow.RefreshLayerClick | StyleMaster/UI/MainControlWindow.xaml.cs:628-647 | The clicked row's layer is refreshed and the whole table reordered. Without a row nothing happens. |
| MainControl.MainControlWindow.ApplyLayerStates | StyleMaster/UI/MainControlWindow.xaml.cs:687-706 | The layer table's flags become `AppliedFrozen` of the old flags and the items. The current layer is unchanged. |
| MainControl.SyncItemFrozenState | StyleMaster/UI/MainControlWindow.xaml.cs:94-140 | On a missing layer nothing changes. Freezing the current layer is refused: the item's flag is rolled back to false and "IsFrozen" is raised once. Otherwise the layer takes the item's flag. The current layer is never frozen by it. |
| MainControl.SyncLayerFrozenState | StyleMaster/UI/MainControlWindow.xaml.cs:145-167 | An existing layer takes the given flag, with no current-layer guard. A missing layer changes nothing. |
| MainControl.EditIsFrozen | StyleMaster/UI/MainControlWindow.xaml.cs:79-89 | Freezing the current layer is rolled back: the row is unfrozen with a second "IsFrozen" notification, and the layer table is unchanged. Otherwise an existing layer takes the new value and a missing layer is untouched. The row changes only in `IsFrozen`, and no other layer changes. |
| PatternSelector.LastIndexIn | StyleMaster/UI/PatternSelectorWindow.xaml.cs:43 | The last position holding a separator, or -1 when there is none. |
| PatternSelector.FileName | StyleMaster/UI/PatternSelectorWindow.xaml.cs:43 | A file name never contains a separator. |
| PatternSelector.FileNameAppend | StyleMaster/UI/PatternSelectorWindow.xaml.cs:43 | Separator-free characters appended to a path all belong to its file name. |
| PatternSelector.DropPatExtension | StyleMaster/UI/PatternSelectorWindow.xaml.cs:43 | Dropping the extension of `<name>.pat` gives back `name`, whatever dots it holds. |
| PatternSelector.Combine | StyleMaster/UI/PatternSelectorWindow.xaml.cs:44 | An empty name gives the folder and a rooted name is returned as is. A relative name is joined to a folder without a trailing separator with one backslash. |
| PatternSelector.FileNameWithoutExtensionOfPatFile | StyleMaster/UI/PatternSelectorWindow.xaml.cs:43 | The name of `<dir>\<name>.pat` is `name`. |
| PatternSelector.LoadedItems | StyleMaster/UI/PatternSelectorWindow.xaml.cs:41-52 | One item per file, the i-th made from the i-th file. |
| PatternSelector.LoadedPatFile | StyleMaster/UI/PatternSelectorWindow.xaml.cs:41-52 | The item for `<dir>\<name>.pat` is named `name` and is not a favourite. It has the thumbnail `<thumbs>\<name>.png` exactly when that file exists, and null otherwise. |
| PatternSelector.Matching | StyleMaster/UI/PatternSelectorWindow.xaml.cs:68 | A pattern survives exactly when it is loaded and its lower-cased name contains the lower-cased search text. |
| PatternSelector.FilteredMembers | StyleMaster/UI/PatternSelectorWindow.xaml.cs:64-68 | A pattern passes the filter exactly when it is loaded and the search is empty or matches its name. |
| PatternSelector.MatchingEmptyText | StyleMaster/UI/PatternSelectorWindow.xaml.cs:67-68 | Filtering with empty text keeps every pattern, so the guard on an empty search does not change what is shown. |
| PatternSelector.DisplayOrderIsTotalPreorder | StyleMaster/UI/PatternSelectorWindow.xaml.cs:73 | Favourites first, then by name, is a total preorder. |
| PatternSelector.Displayed | StyleMaster/UI/PatternSelectorWindow.xaml.cs:62-74 | The shown list is a rearrangement of the filtered patterns: favourites first, names ascending within each group, and ties in list order. |
| PatternSelector.DisplayedMembers | StyleMaster/UI/PatternSelectorWindow.xaml.cs:62-74 | A pattern is shown exactly when it is loaded and the search is empty or matches its name. |
| PatternSelector.EmptySearchShowsAll | StyleMaster/UI/PatternSelectorWindow.xaml.cs:67 | With an empty search every loaded pattern is shown, as often as it was loaded. |
| PatternSelector.LoadPatterns | StyleMaster/UI/PatternSelectorWindow.xaml.cs:38-52 | The loop builds exactly the items `LoadedItems` lists, in file order. |
| PatternSelector.PatternSelectorWindow.constructor | StyleMaster/UI/PatternSelectorWindow.xaml.cs:17-21 | The window loads the patterns, has an empty search, shows every pattern in display order, and has no selection yet. |
| PatternSelector.PatternSelectorWindow.RefreshDisplay | StyleMaster/UI/PatternSelectorWindow.xaml.cs:62-74 | The list shows `Displayed` of the loaded patterns and the current search, and nothing else changes. |
| PatternSelector.PatternSelectorWindow.SearchTextChanged | StyleMaster/UI/PatternSelectorWindow.xaml.cs:94 | A new search text takes effect at once. |
| PatternSelector.PatternSelectorWindow.ItemClick | StyleMaster/UI/PatternSelectorWindow.xaml.cs:76-84 | Clicking a pattern selects its name, sets the dialog result to true and closes the window. Clicking anything else does nothing. |

## Left out

- WPF presentation is not modelled. This covers:
  - the drag ghost, the insertion marker and hit testing (`GetItemAtPoint` and `FindVisualParent`); the dropped and target rows are parameters;
  - the title bar, `Close_Click` and the window singleton;
  - `Star_Click` and `Filter_Changed`, which only call `RefreshDisplay`; the favourites filter line is commented out in the source;
  - the data-grid selection; the selected rows are a parameter.
- Transactions, `LockDocument`, `Regen`, editor messages and the message boxes are I/O. A confirmation box's answer is a parameter.
- The `doc == null` early returns are not modelled, nor the `ent == null` branches. Every id in the model is an entity.
- A null `DrawOrderTableId` is not modelled.
- `ColorDialog` and `SelectColor_Click`, `SelectMaterial_Click` and the pattern selector's result hand-off, `SmartMatch_Click`, `Save`/`LoadFromDatabase`, SVG and PDF export, and `MainTool` are not modelled. None of them are part of this model.
- `ConvertCadColorToBrush` reads the host's layer colours. It is the parameter `preview`.
- `PickLayers_Click` collects the picked layer names into a `HashSet`. Its iteration order is unspecified, so the picked names are an arbitrary sequence.
- The pattern folder's scan is replaced by its results, for three reasons:
  - `Directory.GetFiles(…, "*.pat")` yields the list of file paths;
  - `File.Exists` is the set of paths that exist;
  - creating missing folders and the catch-all message box are I/O.
- `Favorites` is the empty set the source builds. It has no favourites store.
- `Path` functions are modelled for Windows paths only, with `\`, `/` and `:` as separators. Long-path and invalid-character rules are not modelled.
- PatternSelector.DisplayOrder: `ThenBy(p => p.Name)` uses the current culture's string comparison. The model uses ordinal order, a fixed total order standing in for it.
- TextFold.FoldChar: `OrdinalIgnoreCase` and `ToLower` fold every letter of Unicode. The model folds ASCII letters only.
- Materials.MaterialItem.constructor: a null `LayerName` is modelled as the empty string. The source would throw on a null name in the case-insensitive comparisons, and the model does not capture that.
- `Scale` is a C# `double` and is modelled as a `real`. No rounding is modelled.
- `CadColor` is reduced to its colour method and index, and `PreviewBrush` to an RGB triple.
- AutoCAD's own exceptions are not modelled, except two:
  - a rejected pattern or scale, through `Host.acceptsPattern`;
  - a boundary loop that fails to evaluate, through `Host.evaluatesLoop`.
- CadRendering.HatchFor: a hatch's pattern type, normal, elevation and associativity are not modelled.
- MainControl.MainControlWindow.ApplyLayerStates: AutoCAD refuses to freeze the current layer by throwing, which would abort the whole transaction. The model applies every flag, so its contract does not capture that refusal.
- Subscribing to events (`RegisterLayerPropertyTracker`) is not modelled as such. `EditIsFrozen` models the one handler that reacts, for a row that is in the table.
- MainControl.MainControlWindow.MergePickedLayers: its contract states the new rows' values and notifications. It does not state that the new rows are fresh objects; `AppendNewItem` states that for one row.
- MainControl.MainControlWindow.Drop: the exception `Move` throws is reported as the result `moveFailed`. What WPF then does with the unhandled exception is not modelled.
