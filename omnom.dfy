/**
 * The array logic of omnom.py: reading a field named by a label of the
 * commands list, bringing its axes into the canonical order time, depth, lat,
 * lon (adding a time or depth axis of extent 1 where the field has none),
 * assembling the two components and the magnitude of a vector field, and
 * taking the lat × lon slice at the chosen time and depth that the map draws.
 *
 * The netCDF file is a map from variable names to variables; the element type
 * and the trigonometric and square-root arithmetic are left open, as functions
 * applied element by element.
 */
module Omnom {
  import opened Prelude
  import opened NdArrays
  import opened NetCDFFileHandler
  import opened InputManager

  /** A variable of the netCDF file: its dimension names in array order, and its values. */
  datatype Variable<T> = Variable(dims: seq<string>, values: NdArray<T>)

  /** `info_list[label]`: the name of the variable a label stands for. */
  function FieldName(infoList: Option<seq<string>>, fieldLabel: Option<nat>): (r: Result<string>)
    ensures r.Ok? <==> infoList.Some? && fieldLabel.Some? && fieldLabel.value < |infoList.value|
    ensures r.Ok? ==> r.value == infoList.value[fieldLabel.value]
    ensures r.Err? ==> r.error == (if infoList.None? || fieldLabel.None? then NoneValue else IndexOutOfRange)
  {
    if infoList.None? || fieldLabel.None? then Err(NoneValue)
    else if fieldLabel.value >= |infoList.value| then Err(IndexOutOfRange)
    else Ok(infoList.value[fieldLabel.value])
  }

  /** `get_values` and `dimensions_of_variable_list` read the variable of that name. */
  function GetVariable<T>(netcdf: map<string, Variable<T>>, name: string): (r: Result<Variable<T>>)
    ensures r.Ok? <==> name in netcdf
    ensures r.Ok? ==> r.value == netcdf[name]
    ensures r.Err? ==> r.error == VariableNotFound
  {
    if name in netcdf then Ok(netcdf[name]) else Err(VariableNotFound)
  }

  // ---------------------------------------------------------------------------
  // arrange_fields
  // ---------------------------------------------------------------------------

  /**
   * The raw axes of the field that arrange_fields moves to canonical positions,
   * in canonical order: time, depth, lat, lon when the field depends on both,
   * time, lat, lon or depth, lat, lon when it depends on one, lat, lon when on
   * neither. None when one of them is unresolved.
   */
  function FieldAxes(commands: MapCommands, fi: FieldIndexes): Option<seq<nat>> {
    var dependsOnTime := Truthy(commands.isDependsOnTime);
    var dependsOnDepth := Truthy(commands.isDependsOnDepth);
    if (dependsOnTime && fi.time.None?) || (dependsOnDepth && fi.depth.None?) || fi.lat.None? || fi.lon.None? then
      None
    else if dependsOnTime && dependsOnDepth then Some([fi.time.value, fi.depth.value, fi.lat.value, fi.lon.value])
    else if dependsOnTime then Some([fi.time.value, fi.lat.value, fi.lon.value])
    else if dependsOnDepth then Some([fi.depth.value, fi.lat.value, fi.lon.value])
    else Some([fi.lat.value, fi.lon.value])
  }

  /** The canonical axes that FieldAxes fill; the others are the added axes of extent 1. */
  function FieldPositions(commands: MapCommands): seq<nat> {
    var dependsOnTime := Truthy(commands.isDependsOnTime);
    var dependsOnDepth := Truthy(commands.isDependsOnDepth);
    if dependsOnTime && dependsOnDepth then [0, 1, 2, 3]
    else if dependsOnTime then [0, 2, 3]
    else if dependsOnDepth then [1, 2, 3]
    else [2, 3]
  }

  /**
   * arrange_fields: the four cases of the dependency flags. A field that
   * depends on neither time nor depth is wrapped twice, one that lacks one of
   * them once, and the wrapped array is transposed so that its axes come in
   * the order time, depth, lat, lon. An index still None fails (TypeError in
   * numpy and in `int`).
   */
  function ArrangeFields<T>(field: NdArray<T>, commands: MapCommands, fi: FieldIndexes): (r: Result<NdArray<T>>)
    ensures r.Ok? ==> |r.value.shape| == 4
  {
    var dependsOnTime := Truthy(commands.isDependsOnTime);
    var dependsOnDepth := Truthy(commands.isDependsOnDepth);
    if dependsOnTime && dependsOnDepth then
      if fi.time.None? || fi.depth.None? || fi.lat.None? || fi.lon.None? then Err(NoneValue)
      else Transpose(field, [fi.time.value, fi.depth.value, fi.lat.value, fi.lon.value])
    else if dependsOnTime && !dependsOnDepth then
      if fi.time.None? || fi.lat.None? || fi.lon.None? then Err(NoneValue)
      else Transpose(Wrap(field), [fi.time.value + 1, 0, fi.lat.value + 1, fi.lon.value + 1])
    else if !dependsOnTime && dependsOnDepth then
      if fi.depth.None? || fi.lat.None? || fi.lon.None? then Err(NoneValue)
      else Transpose(Wrap(field), [0, fi.depth.value + 1, fi.lat.value + 1, fi.lon.value + 1])
    else
      if fi.lat.None? || fi.lon.None? then Err(NoneValue)
      else Transpose(Wrap(Wrap(field)), [0, 1, fi.lat.value + 2, fi.lon.value + 2])
  }

  /**
   * arrange_fields succeeds exactly when the indexes its case needs are set
   * and they are a permutation of the field's axes: the field must have 4, 3,
   * 3 or 2 axes in the four cases, and no index may repeat.
   */
  lemma ArrangeFieldsDefined<T>(field: NdArray<T>, commands: MapCommands, fi: FieldIndexes)
    ensures ArrangeFields(field, commands, fi).Ok? <==>
              FieldAxes(commands, fi).Some? && IsAxisPermutation(FieldAxes(commands, fi).value, |field.shape|)
    ensures FieldAxes(commands, fi).None? ==> ArrangeFields(field, commands, fi) == Err(NoneValue)
    ensures FieldAxes(commands, fi).Some? && !IsAxisPermutation(FieldAxes(commands, fi).value, |field.shape|) ==>
              ArrangeFields(field, commands, fi) == Err(AxesDontMatch)
    ensures FieldAxes(commands, fi).Some? ==> |FieldAxes(commands, fi).value| == |FieldPositions(commands)|
  {
    if FieldAxes(commands, fi).Some? {
      var axes := FieldAxes(commands, fi).value;
      var n := |field.shape|;
      var dependsOnTime := Truthy(commands.isDependsOnTime);
      var dependsOnDepth := Truthy(commands.isDependsOnDepth);
      if dependsOnTime && !dependsOnDepth {
        TimeWrapAxes(axes[0], axes[1], axes[2], n);
      } else if !dependsOnTime && dependsOnDepth {
        DepthWrapAxes(axes[0], axes[1], axes[2], n);
      } else if !dependsOnTime {
        TwoWrapAxes(axes[0], axes[1], n);
      }
    }
  }

  /** The axes of the time-only case are a permutation exactly when the field's own are. */
  lemma TimeWrapAxes(t: nat, la: nat, lo: nat, n: nat)
    ensures IsAxisPermutation([t + 1, 0, la + 1, lo + 1], n + 1) <==> IsAxisPermutation([t, la, lo], n)
  {
    var axes := [t, la, lo];
    if IsAxisPermutation(axes, n) {
      assert axes[0] < n && axes[1] < n && axes[2] < n;
      assert axes[0] != axes[1] && axes[0] != axes[2] && axes[1] != axes[2];
    }
    var w := [t + 1, 0, la + 1, lo + 1];
    if IsAxisPermutation(w, n + 1) {
      assert w[0] < n + 1 && w[2] < n + 1 && w[3] < n + 1;
      assert w[0] != w[2] && w[0] != w[3] && w[2] != w[3];
    }
  }

  /** The axes of the depth-only case are a permutation exactly when the field's own are. */
  lemma DepthWrapAxes(d: nat, la: nat, lo: nat, n: nat)
    ensures IsAxisPermutation([0, d + 1, la + 1, lo + 1], n + 1) <==> IsAxisPermutation([d, la, lo], n)
  {
    var axes := [d, la, lo];
    if IsAxisPermutation(axes, n) {
      assert axes[0] < n && axes[1] < n && axes[2] < n;
      assert axes[0] != axes[1] && axes[0] != axes[2] && axes[1] != axes[2];
    }
    var w := [0, d + 1, la + 1, lo + 1];
    if IsAxisPermutation(w, n + 1) {
      assert w[1] < n + 1 && w[2] < n + 1 && w[3] < n + 1;
      assert w[1] != w[2] && w[1] != w[3] && w[2] != w[3];
    }
  }

  /** The axes of the case with two added axes are a permutation exactly when the field's own are. */
  lemma TwoWrapAxes(a0: nat, a1: nat, n: nat)
    ensures IsAxisPermutation([0, 1, a0 + 2, a1 + 2], n + 2) <==> IsAxisPermutation([a0, a1], n)
  {
    var axes := [a0, a1];
    if IsAxisPermutation(axes, n) {
      assert axes[0] < n && axes[1] < n && axes[0] != axes[1];
    }
    var w := [0, 1, a0 + 2, a1 + 2];
    if IsAxisPermutation(w, n + 2) {
      assert w[2] < n + 2 && w[3] < n + 2 && w[2] != w[3];
    }
  }

  /**
   * The canonical shape: each filled axis takes the extent of its raw axis,
   * each added axis has extent 1.
   */
  lemma ArrangeFieldsShape<T>(field: NdArray<T>, commands: MapCommands, fi: FieldIndexes)
    requires ArrangeFields(field, commands, fi).Ok?
    ensures FieldAxes(commands, fi).Some?
    ensures var s := field.shape;
            var shape := ArrangeFields(field, commands, fi).value.shape;
            var dependsOnTime := Truthy(commands.isDependsOnTime);
            var dependsOnDepth := Truthy(commands.isDependsOnDepth);
            && fi.lat.Some? && fi.lat.value < |s| && fi.lon.Some? && fi.lon.value < |s|
            && (dependsOnTime && dependsOnDepth ==>
                  fi.time.Some? && fi.time.value < |s| && fi.depth.Some? && fi.depth.value < |s| &&
                  shape == [s[fi.time.value], s[fi.depth.value], s[fi.lat.value], s[fi.lon.value]])
            && (dependsOnTime && !dependsOnDepth ==>
                  fi.time.Some? && fi.time.value < |s| &&
                  shape == [s[fi.time.value], 1, s[fi.lat.value], s[fi.lon.value]])
            && (!dependsOnTime && dependsOnDepth ==>
                  fi.depth.Some? && fi.depth.value < |s| &&
                  shape == [1, s[fi.depth.value], s[fi.lat.value], s[fi.lon.value]])
            && (!dependsOnTime && !dependsOnDepth ==>
                  shape == [1, 1, s[fi.lat.value], s[fi.lon.value]])
  {
    var dependsOnTime := Truthy(commands.isDependsOnTime);
    var dependsOnDepth := Truthy(commands.isDependsOnDepth);
    if dependsOnTime && dependsOnDepth {
      var s := field.shape;
      var shape := ArrangeFields(field, commands, fi).value.shape;
      var axes := [fi.time.value, fi.depth.value, fi.lat.value, fi.lon.value];
      assert shape == [s[axes[0]], s[axes[1]], s[axes[2]], s[axes[3]]];
    } else if dependsOnTime {
      TimeShape(field, fi.time.value, fi.lat.value, fi.lon.value);
    } else if dependsOnDepth {
      DepthShape(field, fi.depth.value, fi.lat.value, fi.lon.value);
    } else {
      PlaneShape(field, fi.lat.value, fi.lon.value);
    }
  }

  /** The shape in the case of a field that depends on time but not on depth. */
  lemma TimeShape<T>(field: NdArray<T>, t: nat, la: nat, lo: nat)
    requires Transpose(Wrap(field), [t + 1, 0, la + 1, lo + 1]).Ok?
    ensures t < |field.shape| && la < |field.shape| && lo < |field.shape|
    ensures var s := field.shape;
            Transpose(Wrap(field), [t + 1, 0, la + 1, lo + 1]).value.shape == [s[t], 1, s[la], s[lo]]
  {
    var axes := [t + 1, 0, la + 1, lo + 1];
    var w := Wrap(field).shape;
    assert axes[0] < |w| && axes[2] < |w| && axes[3] < |w|;
    assert w[t + 1] == field.shape[t] && w[0] == 1 && w[la + 1] == field.shape[la] && w[lo + 1] == field.shape[lo];
  }

  /** The shape in the case of a field that depends on depth but not on time. */
  lemma DepthShape<T>(field: NdArray<T>, d: nat, la: nat, lo: nat)
    requires Transpose(Wrap(field), [0, d + 1, la + 1, lo + 1]).Ok?
    ensures d < |field.shape| && la < |field.shape| && lo < |field.shape|
    ensures var s := field.shape;
            Transpose(Wrap(field), [0, d + 1, la + 1, lo + 1]).value.shape == [1, s[d], s[la], s[lo]]
  {
    var axes := [0, d + 1, la + 1, lo + 1];
    var w := Wrap(field).shape;
    assert axes[1] < |w| && axes[2] < |w| && axes[3] < |w|;
    assert w[0] == 1 && w[d + 1] == field.shape[d] && w[la + 1] == field.shape[la] && w[lo + 1] == field.shape[lo];
  }

  /** The shape in the case of a field that depends on neither time nor depth. */
  lemma PlaneShape<T>(field: NdArray<T>, la: nat, lo: nat)
    requires Transpose(Wrap(Wrap(field)), [0, 1, la + 2, lo + 2]).Ok?
    ensures la < |field.shape| && lo < |field.shape|
    ensures var s := field.shape;
            Transpose(Wrap(Wrap(field)), [0, 1, la + 2, lo + 2]).value.shape == [1, 1, s[la], s[lo]]
  {
    var axes := [0, 1, la + 2, lo + 2];
    var w := Wrap(Wrap(field)).shape;
    assert axes[2] < |w| && axes[3] < |w|;
    assert w[0] == 1 && w[1] == 1 && w[la + 2] == field.shape[la] && w[lo + 2] == field.shape[lo];
  }


  /**
   * An element of a transposed wrapped array: axis 0 of the wrapped array has
   * only index 0, and its axis a > 0 is axis a - 1 of the field.
   */
  lemma TransposeWrapAt<T>(field: NdArray<T>, axes: seq<nat>, idx: seq<nat>, raw: seq<nat>)
    requires Transpose(Wrap(field), axes).Ok?
    requires InBounds(idx, Transpose(Wrap(field), axes).value.shape)
    requires |raw| == |field.shape|
    requires forall k :: 0 <= k < |axes| && axes[k] > 0 ==> axes[k] - 1 < |raw| && raw[axes[k] - 1] == idx[k]
    ensures InBounds(raw, field.shape)
    ensures Transpose(Wrap(field), axes).value.at(idx) == field.at(raw)
  {
    var wrapped := [0] + raw;
    var shape := Transpose(Wrap(field), axes).value.shape;
    forall k | 0 <= k < |axes|
      ensures wrapped[axes[k]] == idx[k]
    {
      if axes[k] == 0 {
        assert idx[k] < shape[k] == Wrap(field).shape[0] == 1;
      } else {
        assert wrapped[axes[k]] == raw[axes[k] - 1];
      }
    }
    TransposeAt(Wrap(field), axes, idx, wrapped);
    forall i | 0 <= i < |raw|
      ensures raw[i] < field.shape[i]
    {
      assert wrapped[i + 1] < Wrap(field).shape[i + 1];
    }
    WrapAt(field, wrapped);
    assert wrapped[1..] == raw;
  }

  /**
   * The raw index tuple `raw` holds, on each raw axis FieldAxes names, the
   * entry of the canonical index tuple `idx` at the position that axis moves to.
   */
  predicate RawPlacesIndex(commands: MapCommands, fi: FieldIndexes, idx: seq<nat>, raw: seq<nat>)
  {
    && |idx| == 4
    && FieldAxes(commands, fi).Some?
    && var axes := FieldAxes(commands, fi).value;
       var positions := FieldPositions(commands);
       && |axes| == |positions|
       && forall j :: 0 <= j < |axes| ==> axes[j] < |raw| && raw[axes[j]] == idx[positions[j]]
  }

  /**
   * The element of the arranged field at a canonical index tuple is the
   * element of the raw field at the index tuple that holds, on each raw axis
   * FieldAxes names, the canonical index of the position it moved to.
   */
  lemma ArrangeFieldsAt<T>(field: NdArray<T>, commands: MapCommands, fi: FieldIndexes, idx: seq<nat>, raw: seq<nat>)
    requires ArrangeFields(field, commands, fi).Ok?
    requires InBounds(idx, ArrangeFields(field, commands, fi).value.shape)
    requires |raw| == |field.shape|
    requires RawPlacesIndex(commands, fi, idx, raw)
    ensures InBounds(raw, field.shape)
    ensures ArrangeFields(field, commands, fi).value.at(idx) == field.at(raw)
  {
    var dependsOnTime := Truthy(commands.isDependsOnTime);
    var dependsOnDepth := Truthy(commands.isDependsOnDepth);
    if dependsOnTime && dependsOnDepth {
      BothAt(field, commands, fi, idx, raw);
    } else if dependsOnTime {
      TimeAt(field, commands, fi, idx, raw);
    } else if dependsOnDepth {
      DepthAt(field, commands, fi, idx, raw);
    } else {
      PlaneAt(field, commands, fi, idx, raw);
    }
  }

  lemma BothAt<T>(field: NdArray<T>, commands: MapCommands, fi: FieldIndexes, idx: seq<nat>, raw: seq<nat>)
    requires Truthy(commands.isDependsOnTime) && Truthy(commands.isDependsOnDepth)
    requires ArrangeFields(field, commands, fi).Ok?
    requires InBounds(idx, ArrangeFields(field, commands, fi).value.shape)
    requires |raw| == |field.shape|
    requires RawPlacesIndex(commands, fi, idx, raw)
    ensures InBounds(raw, field.shape)
    ensures ArrangeFields(field, commands, fi).value.at(idx) == field.at(raw)
  {
    var axes := FieldAxes(commands, fi).value;
    assert FieldPositions(commands) == [0, 1, 2, 3];
    assert ArrangeFields(field, commands, fi) == Transpose(field, axes);
    assert raw[axes[0]] == idx[0] && raw[axes[1]] == idx[1] && raw[axes[2]] == idx[2] && raw[axes[3]] == idx[3];
    TransposeAt(field, axes, idx, raw);
  }

  lemma TimeAt<T>(field: NdArray<T>, commands: MapCommands, fi: FieldIndexes, idx: seq<nat>, raw: seq<nat>)
    requires Truthy(commands.isDependsOnTime) && !Truthy(commands.isDependsOnDepth)
    requires ArrangeFields(field, commands, fi).Ok?
    requires InBounds(idx, ArrangeFields(field, commands, fi).value.shape)
    requires |raw| == |field.shape|
    requires RawPlacesIndex(commands, fi, idx, raw)
    ensures InBounds(raw, field.shape)
    ensures ArrangeFields(field, commands, fi).value.at(idx) == field.at(raw)
  {
    var axes := FieldAxes(commands, fi).value;
    assert FieldPositions(commands) == [0, 2, 3];
    assert ArrangeFields(field, commands, fi) == Transpose(Wrap(field), [axes[0] + 1, 0, axes[1] + 1, axes[2] + 1]);
    assert raw[axes[0]] == idx[0] && raw[axes[1]] == idx[2] && raw[axes[2]] == idx[3];
    TimeOnlyAt(field, axes[0], axes[1], axes[2], idx, raw);
  }

  lemma DepthAt<T>(field: NdArray<T>, commands: MapCommands, fi: FieldIndexes, idx: seq<nat>, raw: seq<nat>)
    requires !Truthy(commands.isDependsOnTime) && Truthy(commands.isDependsOnDepth)
    requires ArrangeFields(field, commands, fi).Ok?
    requires InBounds(idx, ArrangeFields(field, commands, fi).value.shape)
    requires |raw| == |field.shape|
    requires RawPlacesIndex(commands, fi, idx, raw)
    ensures InBounds(raw, field.shape)
    ensures ArrangeFields(field, commands, fi).value.at(idx) == field.at(raw)
  {
    var axes := FieldAxes(commands, fi).value;
    assert FieldPositions(commands) == [1, 2, 3];
    assert ArrangeFields(field, commands, fi) == Transpose(Wrap(field), [0, axes[0] + 1, axes[1] + 1, axes[2] + 1]);
    assert raw[axes[0]] == idx[1] && raw[axes[1]] == idx[2] && raw[axes[2]] == idx[3];
    DepthOnlyAt(field, axes[0], axes[1], axes[2], idx, raw);
  }

  lemma PlaneAt<T>(field: NdArray<T>, commands: MapCommands, fi: FieldIndexes, idx: seq<nat>, raw: seq<nat>)
    requires !Truthy(commands.isDependsOnTime) && !Truthy(commands.isDependsOnDepth)
    requires ArrangeFields(field, commands, fi).Ok?
    requires InBounds(idx, ArrangeFields(field, commands, fi).value.shape)
    requires |raw| == |field.shape|
    requires RawPlacesIndex(commands, fi, idx, raw)
    ensures InBounds(raw, field.shape)
    ensures ArrangeFields(field, commands, fi).value.at(idx) == field.at(raw)
  {
    var axes := FieldAxes(commands, fi).value;
    assert FieldPositions(commands) == [2, 3];
    assert ArrangeFields(field, commands, fi) == Transpose(Wrap(Wrap(field)), [0, 1, axes[0] + 2, axes[1] + 2]);
    assert raw[axes[0]] == idx[2] && raw[axes[1]] == idx[3];
    NeitherAt(field, axes[0], axes[1], idx, raw);
  }

  /** ArrangeFieldsAt for a field that depends on time only. */
  lemma TimeOnlyAt<T>(field: NdArray<T>, t: nat, la: nat, lo: nat, idx: seq<nat>, raw: seq<nat>)
    requires Transpose(Wrap(field), [t + 1, 0, la + 1, lo + 1]).Ok?
    requires InBounds(idx, Transpose(Wrap(field), [t + 1, 0, la + 1, lo + 1]).value.shape)
    requires |raw| == |field.shape| && t < |raw| && la < |raw| && lo < |raw|
    requires raw[t] == idx[0] && raw[la] == idx[2] && raw[lo] == idx[3]
    ensures InBounds(raw, field.shape)
    ensures Transpose(Wrap(field), [t + 1, 0, la + 1, lo + 1]).value.at(idx) == field.at(raw)
  {
    TransposeWrapAt(field, [t + 1, 0, la + 1, lo + 1], idx, raw);
  }

  /** ArrangeFieldsAt for a field that depends on depth only. */
  lemma DepthOnlyAt<T>(field: NdArray<T>, d: nat, la: nat, lo: nat, idx: seq<nat>, raw: seq<nat>)
    requires Transpose(Wrap(field), [0, d + 1, la + 1, lo + 1]).Ok?
    requires InBounds(idx, Transpose(Wrap(field), [0, d + 1, la + 1, lo + 1]).value.shape)
    requires |raw| == |field.shape| && d < |raw| && la < |raw| && lo < |raw|
    requires raw[d] == idx[1] && raw[la] == idx[2] && raw[lo] == idx[3]
    ensures InBounds(raw, field.shape)
    ensures Transpose(Wrap(field), [0, d + 1, la + 1, lo + 1]).value.at(idx) == field.at(raw)
  {
    TransposeWrapAt(field, [0, d + 1, la + 1, lo + 1], idx, raw);
  }

  /** ArrangeFieldsAt for a field that depends on neither time nor depth. */
  lemma NeitherAt<T>(field: NdArray<T>, la: nat, lo: nat, idx: seq<nat>, raw: seq<nat>)
    requires Transpose(Wrap(Wrap(field)), [0, 1, la + 2, lo + 2]).Ok?
    requires InBounds(idx, Transpose(Wrap(Wrap(field)), [0, 1, la + 2, lo + 2]).value.shape)
    requires |raw| == |field.shape| && la < |raw| && lo < |raw|
    requires raw[la] == idx[2] && raw[lo] == idx[3]
    ensures InBounds(raw, field.shape)
    ensures Transpose(Wrap(Wrap(field)), [0, 1, la + 2, lo + 2]).value.at(idx) == field.at(raw)
  {
    var a := Transpose(Wrap(Wrap(field)), [0, 1, la + 2, lo + 2]);
    var wrapped := [0] + raw;
    assert idx[1] < a.value.shape[1] == Wrap(Wrap(field)).shape[1] == 1;
    assert wrapped[la + 1] == raw[la] && wrapped[lo + 1] == raw[lo];
    TransposeWrapAt(Wrap(field), [0, 1, la + 2, lo + 2], idx, wrapped);
    forall i | 0 <= i < |raw|
      ensures raw[i] < field.shape[i]
    {
      assert wrapped[i + 1] < Wrap(field).shape[i + 1];
    }
    WrapAt(field, wrapped);
    assert wrapped[1..] == raw;
  }

  /**
   * When the field depends on both time and depth, arranging it is a
   * bijection: transposing by the inverse of its index permutation gives the
   * raw field back.
   */
  lemma ArrangeFieldsInvertible<T>(field: NdArray<T>, commands: MapCommands, fi: FieldIndexes)
    requires Truthy(commands.isDependsOnTime) && Truthy(commands.isDependsOnDepth)
    requires ArrangeFields(field, commands, fi).Ok?
    ensures FieldAxes(commands, fi).Some?
    ensures var back := Transpose(ArrangeFields(field, commands, fi).value, Inverse(FieldAxes(commands, fi).value));
            && back.Ok?
            && back.value.shape == field.shape
            && forall idx :: InBounds(idx, field.shape) ==> back.value.at(idx) == field.at(idx)
  {
    ArrangeFieldsDefined(field, commands, fi);
    TransposeRoundTrip(field, FieldAxes(commands, fi).value);
  }

  /**
   * A field that depends on neither time nor depth becomes, at [0][0], the
   * raw two-axis field transposed to lat, lon order.
   */
  lemma ArrangeFieldsPlane<T>(field: NdArray<T>, commands: MapCommands, fi: FieldIndexes)
    requires !Truthy(commands.isDependsOnTime) && !Truthy(commands.isDependsOnDepth)
    requires ArrangeFields(field, commands, fi).Ok?
    ensures fi.lat.Some? && fi.lon.Some?
    ensures var plane := Index2(ArrangeFields(field, commands, fi).value, 0, 0);
            var flat := Transpose(field, [fi.lat.value, fi.lon.value]);
            && plane.Ok? && flat.Ok?
            && plane.value.shape == flat.value.shape
            && forall idx :: InBounds(idx, flat.value.shape) ==> plane.value.at(idx) == flat.value.at(idx)
  {
    ArrangeFieldsDefined(field, commands, fi);
    ArrangeFieldsShape(field, commands, fi);
    var axes := [fi.lat.value, fi.lon.value];
    assert FieldAxes(commands, fi).value == axes;
    var flat := Transpose(field, axes);
    assert flat.value.shape == [field.shape[axes[0]], field.shape[axes[1]]];
    forall idx | InBounds(idx, flat.value.shape)
      ensures Index2(ArrangeFields(field, commands, fi).value, 0, 0).value.at(idx) == flat.value.at(idx)
    {
      ArrangeFieldsPlaneAt(field, commands, fi, idx);
    }
  }

  lemma ArrangeFieldsPlaneAt<T>(field: NdArray<T>, commands: MapCommands, fi: FieldIndexes, idx: seq<nat>)
    requires !Truthy(commands.isDependsOnTime) && !Truthy(commands.isDependsOnDepth)
    requires ArrangeFields(field, commands, fi).Ok?
    requires FieldAxes(commands, fi) == Some([fi.lat.value, fi.lon.value])
    requires fi.lat.value < |field.shape| && fi.lon.value < |field.shape|
    requires Transpose(field, [fi.lat.value, fi.lon.value]).Ok?
    requires InBounds(idx, Transpose(field, [fi.lat.value, fi.lon.value]).value.shape)
    requires ArrangeFields(field, commands, fi).value.shape ==
             [1, 1, field.shape[fi.lat.value], field.shape[fi.lon.value]]
    ensures Index2(ArrangeFields(field, commands, fi).value, 0, 0).Ok?
    ensures Index2(ArrangeFields(field, commands, fi).value, 0, 0).value.at(idx) ==
            Transpose(field, [fi.lat.value, fi.lon.value]).value.at(idx)
  {
    var a := ArrangeFields(field, commands, fi).value;
    var axes := [fi.lat.value, fi.lon.value];
    var raw := Scatter(idx, axes);
    ScatterAt(idx, axes, 0);
    ScatterAt(idx, axes, 1);
    var full := [0, 0] + idx;
    assert FieldPositions(commands) == [2, 3];
    assert InBounds(full, a.shape);
    ArrangeFieldsAt(field, commands, fi, full, raw);
    TransposeAt(field, axes, idx, raw);
    Index2At(a, 0, 0, idx);
  }

  /**
   * The example of an arranged field that depends on time but not on depth:
   * raw dimensions [lon, time, lat] of extents (4, 3, 5), with the roles named
   * time, lat and lon in the label list, give the canonical shape (3, 1, 5, 4).
   */
  lemma ArrangeFieldsExample<T>(values: seq<nat> -> T, commands: MapCommands)
    requires commands.isDependsOnTime == Some(true) && commands.isDependsOnDepth == Some(false)
    requires commands.roles == RoleLabels(Some(0), None, Some(1), Some(2))
    ensures var fi := ResolveIndexes(["lon", "time", "lat"], ["time", "lat", "lon"], commands.roles);
            && fi == Ok(FieldIndexes(Some(1), None, Some(2), Some(0)))
            && ArrangeFields(NdArray([4, 3, 5], values), commands, fi.value).Ok?
            && ArrangeFields(NdArray([4, 3, 5], values), commands, fi.value).value.shape == [3, 1, 5, 4]
  {
    var dims := ["lon", "time", "lat"];
    var infoList := ["time", "lat", "lon"];
    assert IndexOf(dims, "time") == Some(1);
    assert IndexOf(dims, "lat") == Some(2);
    assert IndexOf(dims, "lon") == Some(0);
    var fi := FieldIndexes(Some(1), None, Some(2), Some(0));
    var field := NdArray([4, 3, 5], values);
    ArrangeFieldsDefined(field, commands, fi);
    ArrangeFieldsShape(field, commands, fi);
  }

  // ---------------------------------------------------------------------------
  // field[current_time_value][current_depth_value]
  // ---------------------------------------------------------------------------

  /** The lat × lon slice the map draws, at the chosen time and depth positions. */
  function Slice<T>(field: NdArray<T>, commands: MapCommands): (r: Result<NdArray<T>>)
    ensures r.Ok? <==>
              && |field.shape| >= 2
              && commands.currentTimeValue < field.shape[0]
              && commands.currentDepthValue < field.shape[1]
    ensures r.Err? ==> r.error == IndexOutOfRange
    ensures r.Ok? ==> r.value.shape == field.shape[2..]
  {
    Index2(field, commands.currentTimeValue, commands.currentDepthValue)
  }

  /**
   * The slice of an arranged field is a lat × lon array, taken exactly when
   * the time and depth positions are below the extents of the first two
   * axes. An added axis has extent 1, so position 0 (the initial value) is
   * always valid for a role the field does not depend on.
   */
  lemma SliceOfArranged<T>(field: NdArray<T>, commands: MapCommands, fi: FieldIndexes)
    requires ArrangeFields(field, commands, fi).Ok?
    ensures fi.lat.Some? && fi.lat.value < |field.shape| && fi.lon.Some? && fi.lon.value < |field.shape|
    ensures var a := ArrangeFields(field, commands, fi).value;
            && (Slice(a, commands).Ok? <==>
                  commands.currentTimeValue < a.shape[0] && commands.currentDepthValue < a.shape[1])
            && (Slice(a, commands).Ok? ==>
                  Slice(a, commands).value.shape == [field.shape[fi.lat.value], field.shape[fi.lon.value]])
            && (!Truthy(commands.isDependsOnTime) ==> a.shape[0] == 1)
            && (!Truthy(commands.isDependsOnDepth) ==> a.shape[1] == 1)
  {
    ArrangeFieldsShape(field, commands, fi);
  }

  /**
   * A MapCommandsList still at the positions its constructors leave (time and
   * depth position 0) slices an arranged field exactly when the time and
   * depth axes are not empty, and always when the field depends on neither.
   */
  lemma SliceAtInitialPositions<T>(m: MapCommandsList, field: NdArray<T>, fi: FieldIndexes)
    requires m.currentTimeValue == 0 && m.currentDepthValue == 0
    requires ArrangeFields(field, m.Commands(), fi).Ok?
    ensures var a := ArrangeFields(field, m.Commands(), fi).value;
            Slice(a, m.Commands()).Ok? <==> a.shape[0] > 0 && a.shape[1] > 0
    ensures !Truthy(m.isDependsOnTime) && !Truthy(m.isDependsOnDepth) ==>
              Slice(ArrangeFields(field, m.Commands(), fi).value, m.Commands()).Ok?
  {
    SliceOfArranged(field, m.Commands(), fi);
  }

  // ---------------------------------------------------------------------------
  // reading and arranging one field; the vector components
  // ---------------------------------------------------------------------------

  /**
   * The field a label names, read and arranged: `info_list[label]`,
   * `get_values`, find_indexes_in_dimension_list and arrange_fields, in the
   * order make_map_scalar does them.
   */
  function ArrangedField<T>(netcdf: map<string, Variable<T>>, commands: MapCommands, fieldLabel: Option<nat>): (r: Result<NdArray<T>>)
    ensures r.Ok? ==> |r.value.shape| == 4
  {
    var name :- FieldName(commands.infoList, fieldLabel);
    var variable :- GetVariable(netcdf, name);
    var fi :- ResolveIndexes(variable.dims, commands.infoList.value, commands.roles);
    ArrangeFields(variable.values, commands, fi)
  }

  /** ArrangedField succeeds exactly when each of its four steps does, and then it arranges the named variable. */
  lemma ArrangedFieldSteps<T>(netcdf: map<string, Variable<T>>, commands: MapCommands, fieldLabel: Option<nat>)
    ensures ArrangedField(netcdf, commands, fieldLabel).Ok? <==>
              && FieldName(commands.infoList, fieldLabel).Ok?
              && FieldName(commands.infoList, fieldLabel).value in netcdf
              && var variable := netcdf[FieldName(commands.infoList, fieldLabel).value];
                 && ResolveIndexes(variable.dims, commands.infoList.value, commands.roles).Ok?
                 && ArrangeFields(variable.values, commands,
                                  ResolveIndexes(variable.dims, commands.infoList.value, commands.roles).value).Ok?
    ensures ArrangedField(netcdf, commands, fieldLabel).Ok? ==>
              var variable := netcdf[FieldName(commands.infoList, fieldLabel).value];
              ArrangedField(netcdf, commands, fieldLabel) ==
                ArrangeFields(variable.values, commands,
                              ResolveIndexes(variable.dims, commands.infoList.value, commands.roles).value)
  {
  }

  /** The three arrays make_map_vectorial draws from: the lat and lon components and the magnitude. */
  datatype VectorComponents<T> = VectorComponents(lat: NdArray<T>, lon: NdArray<T>, size: NdArray<T>)

  /**
   * make_polar_components: the magnitude and the angle fields, arranged, and
   * the lat and lon components computed element by element from them.
   * latOf and lonOf stand for `m * cos(a * π / 180 + π / 2)` and
   * `m * sin(a * π / 180 + π / 2)`.
   */
  function MakePolarComponents<T>(netcdf: map<string, Variable<T>>, commands: MapCommands,
                                  latOf: (T, T) -> T, lonOf: (T, T) -> T): (r: Result<VectorComponents<T>>)
    ensures r.Ok? <==>
              && ArrangedField(netcdf, commands, commands.radComponent).Ok?
              && ArrangedField(netcdf, commands, commands.angComponent).Ok?
              && ArrangedField(netcdf, commands, commands.radComponent).value.shape ==
                 ArrangedField(netcdf, commands, commands.angComponent).value.shape
    ensures r.Ok? ==>
              var size := ArrangedField(netcdf, commands, commands.radComponent).value;
              var ang := ArrangedField(netcdf, commands, commands.angComponent).value;
              && r.value.size == size
              && r.value.lat.shape == size.shape && r.value.lon.shape == size.shape
              && (forall idx :: r.value.lat.at(idx) == latOf(size.at(idx), ang.at(idx)))
              && (forall idx :: r.value.lon.at(idx) == lonOf(size.at(idx), ang.at(idx)))
  {
    var sizeName :- FieldName(commands.infoList, commands.radComponent);
    var angName :- FieldName(commands.infoList, commands.angComponent);
    var sizeVariable :- GetVariable(netcdf, sizeName);
    var angVariable :- GetVariable(netcdf, angName);
    var sizeIndexes :- ResolveIndexes(sizeVariable.dims, commands.infoList.value, commands.roles);
    var angIndexes :- ResolveIndexes(angVariable.dims, commands.infoList.value, commands.roles);
    var size :- ArrangeFields(sizeVariable.values, commands, sizeIndexes);
    var ang :- ArrangeFields(angVariable.values, commands, angIndexes);
    var lat :- Pointwise(latOf, size, ang);
    var lon := Pointwise(lonOf, size, ang).value;
    Ok(VectorComponents(lat, lon, size))
  }

  /**
   * make_cartesian_components: the lat and lon component fields, arranged,
   * and the magnitude computed element by element from them. norm stands for
   * `sqrt(x ** 2 + y ** 2)`.
   */
  function MakeCartesianComponents<T>(netcdf: map<string, Variable<T>>, commands: MapCommands,
                                      norm: (T, T) -> T): (r: Result<VectorComponents<T>>)
    ensures r.Ok? <==>
              && ArrangedField(netcdf, commands, commands.latComponent).Ok?
              && ArrangedField(netcdf, commands, commands.lonComponent).Ok?
              && ArrangedField(netcdf, commands, commands.latComponent).value.shape ==
                 ArrangedField(netcdf, commands, commands.lonComponent).value.shape
    ensures r.Ok? ==>
              && r.value.lat == ArrangedField(netcdf, commands, commands.latComponent).value
              && r.value.lon == ArrangedField(netcdf, commands, commands.lonComponent).value
              && r.value.lon.shape == r.value.lat.shape && r.value.size.shape == r.value.lat.shape
              && (forall idx :: r.value.size.at(idx) == norm(r.value.lat.at(idx), r.value.lon.at(idx)))
  {
    var latName :- FieldName(commands.infoList, commands.latComponent);
    var lonName :- FieldName(commands.infoList, commands.lonComponent);
    var latVariable :- GetVariable(netcdf, latName);
    var lonVariable :- GetVariable(netcdf, lonName);
    var latIndexes :- ResolveIndexes(latVariable.dims, commands.infoList.value, commands.roles);
    var lonIndexes :- ResolveIndexes(lonVariable.dims, commands.infoList.value, commands.roles);
    var lat :- ArrangeFields(latVariable.values, commands, latIndexes);
    var lon :- ArrangeFields(lonVariable.values, commands, lonIndexes);
    var size :- Pointwise(norm, lat, lon);
    Ok(VectorComponents(lat, lon, size))
  }

  /**
   * The two decompositions agree on the magnitude: when norm recovers every
   * admissible magnitude from the components latOf and lonOf make of it (for
   * m * cos a, m * sin a and the square root of the sum of squares, the
   * admissible magnitudes are those m >= 0), and every element of the
   * magnitude field is admissible, the magnitude of the polar components,
   * computed as the Cartesian path does, is the polar magnitude.
   */
  lemma PolarMagnitudeConsistent<T>(netcdf: map<string, Variable<T>>, commands: MapCommands,
                                    latOf: (T, T) -> T, lonOf: (T, T) -> T, norm: (T, T) -> T,
                                    isMagnitude: T -> bool)
    requires forall m, a :: isMagnitude(m) ==> norm(latOf(m, a), lonOf(m, a)) == m
    requires MakePolarComponents(netcdf, commands, latOf, lonOf).Ok?
    requires var size := MakePolarComponents(netcdf, commands, latOf, lonOf).value.size;
             forall idx :: InBounds(idx, size.shape) ==> isMagnitude(size.at(idx))
    ensures var v := MakePolarComponents(netcdf, commands, latOf, lonOf).value;
            && Pointwise(norm, v.lat, v.lon).Ok?
            && Pointwise(norm, v.lat, v.lon).value.shape == v.size.shape
            && forall idx :: InBounds(idx, v.size.shape) ==> Pointwise(norm, v.lat, v.lon).value.at(idx) == v.size.at(idx)
  {
    var v := MakePolarComponents(netcdf, commands, latOf, lonOf).value;
    var ang := ArrangedField(netcdf, commands, commands.angComponent).value;
    forall idx | InBounds(idx, v.size.shape)
      ensures Pointwise(norm, v.lat, v.lon).value.at(idx) == v.size.at(idx)
    {
      PointwiseAt(norm, v.lat, v.lon, idx);
      assert v.lat.at(idx) == latOf(v.size.at(idx), ang.at(idx));
      assert v.lon.at(idx) == lonOf(v.size.at(idx), ang.at(idx));
      RecoversMagnitude(latOf, lonOf, norm, isMagnitude, v.size.at(idx), ang.at(idx));
    }
  }

  /** The hypothesis of PolarMagnitudeConsistent at one admissible magnitude m and angle a. */
  lemma RecoversMagnitude<T>(latOf: (T, T) -> T, lonOf: (T, T) -> T, norm: (T, T) -> T, isMagnitude: T -> bool, m: T, a: T)
    requires forall m, a :: isMagnitude(m) ==> norm(latOf(m, a), lonOf(m, a)) == m
    requires isMagnitude(m)
    ensures norm(latOf(m, a), lonOf(m, a)) == m
  {
  }

  // ---------------------------------------------------------------------------
  // make_map, make_map_scalar, make_map_vectorial
  // ---------------------------------------------------------------------------

  /** What a map draws: a scalar slice, or the magnitude slice with the arrows' two component slices. */
  datatype Drawing<T> =
    | ScalarMap(contour: NdArray<T>)
    | VectorMap(contour: NdArray<T>, latArrows: NdArray<T>, lonArrows: NdArray<T>)

  /** make_map_scalar: the slice of the arranged scalar field at the chosen time and depth. */
  function MakeMapScalar<T>(netcdf: map<string, Variable<T>>, commands: MapCommands): (r: Result<Drawing<T>>)
    ensures r.Ok? <==>
              && ArrangedField(netcdf, commands, commands.scalarFieldLabel).Ok?
              && Slice(ArrangedField(netcdf, commands, commands.scalarFieldLabel).value, commands).Ok?
    ensures r.Ok? ==>
              var field := ArrangedField(netcdf, commands, commands.scalarFieldLabel).value;
              && r.value.ScalarMap?
              && r.value.contour.shape == field.shape[2..]
              && forall idx :: r.value.contour.at(idx) ==
                                 field.at([commands.currentTimeValue, commands.currentDepthValue] + idx)
  {
    var field :- ArrangedField(netcdf, commands, commands.scalarFieldLabel);
    var contour :- Slice(field, commands);
    Ok(ScalarMap(contour))
  }

  /**
   * make_map_vectorial: the polar or the Cartesian components, as is_polar
   * says, sliced at the chosen time and depth: the contour of the magnitude
   * and the two components of the arrows.
   */
  function MakeMapVectorial<T>(netcdf: map<string, Variable<T>>, commands: MapCommands,
                               latOf: (T, T) -> T, lonOf: (T, T) -> T, norm: (T, T) -> T): (r: Result<Drawing<T>>)
    ensures var v := if Truthy(commands.isPolar) then MakePolarComponents(netcdf, commands, latOf, lonOf)
                     else MakeCartesianComponents(netcdf, commands, norm);
            && (r.Ok? <==> v.Ok? && Slice(v.value.size, commands).Ok?)
            && (r.Ok? ==>
                  && r.value.VectorMap?
                  && r.value.contour == Slice(v.value.size, commands).value
                  && r.value.latArrows == Slice(v.value.lat, commands).value
                  && r.value.lonArrows == Slice(v.value.lon, commands).value
                  && r.value.latArrows.shape == r.value.contour.shape
                  && r.value.lonArrows.shape == r.value.contour.shape)
  {
    var v :- if Truthy(commands.isPolar) then MakePolarComponents(netcdf, commands, latOf, lonOf)
             else MakeCartesianComponents(netcdf, commands, norm);
    var contour :- Slice(v.size, commands);
    var latArrows := Slice(v.lat, commands).value;
    var lonArrows := Slice(v.lon, commands).value;
    Ok(VectorMap(contour, latArrows, lonArrows))
  }

  /** make_map: a vector map when is_vector_field is set, a scalar map otherwise (None included). */
  function MakeMap<T>(netcdf: map<string, Variable<T>>, commands: MapCommands,
                      latOf: (T, T) -> T, lonOf: (T, T) -> T, norm: (T, T) -> T): (r: Result<Drawing<T>>)
    ensures r.Ok? ==> (r.value.VectorMap? <==> Truthy(commands.isVectorField))
    ensures Truthy(commands.isVectorField) ==> r == MakeMapVectorial(netcdf, commands, latOf, lonOf, norm)
    ensures !Truthy(commands.isVectorField) ==> r == MakeMapScalar(netcdf, commands)
  {
    if Truthy(commands.isVectorField) then MakeMapVectorial(netcdf, commands, latOf, lonOf, norm)
    else MakeMapScalar(netcdf, commands)
  }
}
