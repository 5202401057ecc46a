/**
  `MaterialItem`: one row of the material table. Every property setter stores its value
  and raises `PropertyChanged` with the property's own name; setting `CadColor` to a
  colour also copies that colour's index into `ColorIndex`, without a separate
  "ColorIndex" notification.
*/
module Materials {
  import opened Wrappers

  /** How an AutoCAD colour is specified. */
  datatype ColorMethod = ByLayer | ByBlock | ByAci | ByColor

  /** An AutoCAD colour, reduced to its method and its colour index. */
  datatype CadColor = CadColor(colorMethod: ColorMethod, colorIndex: int)

  /** The WPF preview brush, reduced to its RGB colour. */
  datatype Rgb = Rgb(r: int, g: int, b: int)

  /** The colour index AutoCAD uses for "ByLayer". */
  const ByLayerIndex: int := 256

  /** The values of all properties of an item at one moment. */
  datatype MaterialFields = MaterialFields(
    layerName: string,
    priority: int,
    fillType: Option<string>,
    patternName: Option<string>,
    scale: real,
    isFillLayer: bool,
    isFrozen: bool,
    colorIndex: int,
    cadColor: Option<CadColor>,
    previewBrush: Option<Rgb>)

  /** The field initialisers of a freshly constructed item. */
  const DefaultFields: MaterialFields :=
    MaterialFields("", 0, None, None, 1.0, true, false, ByLayerIndex, None, None)

  class MaterialItem {
    var layerName: string
    var priority: int
    var fillType: Option<string>
    var patternName: Option<string>
    var scale: real
    var isFillLayer: bool
    var isFrozen: bool
    var colorIndex: int
    var cadColor: Option<CadColor>
    var previewBrush: Option<Rgb>
    /** The property names carried by the `PropertyChanged` events raised so far, oldest first. */
    var notifications: seq<string>

    function Fields(): MaterialFields
      reads this
    {
      MaterialFields(layerName, priority, fillType, patternName, scale, isFillLayer,
        isFrozen, colorIndex, cadColor, previewBrush)
    }

    constructor ()
      ensures Fields() == DefaultFields
      ensures scale == 1.0 && isFillLayer && !isFrozen && colorIndex == ByLayerIndex
      ensures notifications == []
    {
      layerName := "";
      priority := 0;
      fillType := None;
      patternName := None;
      scale := 1.0;
      isFillLayer := true;
      isFrozen := false;
      colorIndex := ByLayerIndex;
      cadColor := None;
      previewBrush := None;
      notifications := [];
    }

    method SetLayerName(value: string)
      modifies this
      ensures Fields() == old(Fields()).(layerName := value)
      ensures notifications == old(notifications) + ["LayerName"]
    {
      layerName := value;
      notifications := notifications + ["LayerName"];
    }

    method SetPriority(value: int)
      modifies this
      ensures Fields() == old(Fields()).(priority := value)
      ensures notifications == old(notifications) + ["Priority"]
    {
      priority := value;
      notifications := notifications + ["Priority"];
    }

    method SetFillType(value: Option<string>)
      modifies this
      ensures Fields() == old(Fields()).(fillType := value)
      ensures notifications == old(notifications) + ["FillType"]
    {
      fillType := value;
      notifications := notifications + ["FillType"];
    }

    method SetPatternName(value: Option<string>)
      modifies this
      ensures Fields() == old(Fields()).(patternName := value)
      ensures notifications == old(notifications) + ["PatternName"]
    {
      patternName := value;
      notifications := notifications + ["PatternName"];
    }

    method SetScale(value: real)
      modifies this
      ensures Fields() == old(Fields()).(scale := value)
      ensures notifications == old(notifications) + ["Scale"]
    {
      scale := value;
      notifications := notifications + ["Scale"];
    }

    method SetIsFillLayer(value: bool)
      modifies this
      ensures Fields() == old(Fields()).(isFillLayer := value)
      ensures notifications == old(notifications) + ["IsFillLayer"]
    {
      isFillLayer := value;
      notifications := notifications + ["IsFillLayer"];
    }

    method SetIsFrozen(value: bool)
      modifies this
      ensures Fields() == old(Fields()).(isFrozen := value)
      ensures notifications == old(notifications) + ["IsFrozen"]
    {
      isFrozen := value;
      notifications := notifications + ["IsFrozen"];
    }

    method SetColorIndex(value: int)
      modifies this
      ensures Fields() == old(Fields()).(colorIndex := value)
      ensures notifications == old(notifications) + ["ColorIndex"]
    {
      colorIndex := value;
      notifications := notifications + ["ColorIndex"];
    }

    /** A colour also sets `ColorIndex`; null leaves it; only "CadColor" is notified. */
    method SetCadColor(value: Option<CadColor>)
      modifies this
      ensures Fields() == old(Fields()).(cadColor := value, colorIndex := SyncedColorIndex(old(colorIndex), value))
      ensures notifications == old(notifications) + ["CadColor"]
    {
      cadColor := value;
      if value.Some? {
        colorIndex := value.value.colorIndex;
      }
      notifications := notifications + ["CadColor"];
    }

    method SetPreviewBrush(value: Option<Rgb>)
      modifies this
      ensures Fields() == old(Fields()).(previewBrush := value)
      ensures notifications == old(notifications) + ["PreviewBrush"]
    {
      previewBrush := value;
      notifications := notifications + ["PreviewBrush"];
    }
  }

  /** The `ColorIndex` after assigning `CadColor := color` to an item whose index was `current`. */
  function SyncedColorIndex(current: int, color: Option<CadColor>): (r: int)
    ensures color.Some? ==> r == color.value.colorIndex
    ensures color.None? ==> r == current
  {
    match color
    case Some(c) => c.colorIndex
    case None => current
  }

  /** The layer names of a sequence of items, in order (`items.Select(x => x.LayerName)`). */
  function LayerNames(items: seq<MaterialFields>): (names: seq<string>)
    ensures |names| == |items|
    ensures forall i :: 0 <= i < |items| ==> names[i] == items[i].layerName
  {
    seq(|items|, i requires 0 <= i < |items| => items[i].layerName)
  }

  /** The AutoCAD "ByLayer" colour (`Color.FromColorIndex(ColorMethod.ByLayer, 256)`). */
  const ByLayerColor: CadColor := CadColor(ByLayer, ByLayerIndex)
}
