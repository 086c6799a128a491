/**
 * The name-list logic of netCDF_file_handler.py: which variable names a label
 * selects, and where each declared role (time, depth, lat, lon) sits in a
 * variable's ordered list of dimension names. The netCDF file itself is not
 * modelled; its variable names, dimension names and a variable's dimension
 * list are passed in as sequences of strings.
 */
module NetCDFFileHandler {
  import opened Prelude

  /** The three kinds of name list variable_name_list can return. */
  datatype Labels = LABELS | DIMENSIONS | DATA

  // ---------------------------------------------------------------------------
  // variable_name_list
  // ---------------------------------------------------------------------------

  /**
   * The data variables: the variable names that are not dimension names, in the
   * order of `variables`. Defined from the back, as the append loop builds it.
   */
  function DataVariables(variables: seq<string>, dimensions: seq<string>): seq<string>
  {
    if |variables| == 0 then []
    else
      var last := variables[|variables| - 1];
      DataVariables(variables[..|variables| - 1], dimensions) + (if last in dimensions then [] else [last])
  }

  /** `xs` is `ys` with some elements left out, the rest kept in order. */
  predicate IsSubsequence(xs: seq<string>, ys: seq<string>)
    decreases |ys|
  {
    if |xs| == 0 then true
    else if |ys| == 0 then false
    else if xs[|xs| - 1] == ys[|ys| - 1] then IsSubsequence(xs[..|xs| - 1], ys[..|ys| - 1])
    else IsSubsequence(xs, ys[..|ys| - 1])
  }

  /** A name is a data variable exactly when it is a variable and not a dimension. */
  lemma {:induction false} DataVariablesMembership(variables: seq<string>, dimensions: seq<string>, name: string)
    ensures name in DataVariables(variables, dimensions) <==> name in variables && name !in dimensions
  {
    if |variables| > 0 {
      var front := variables[..|variables| - 1];
      DataVariablesMembership(front, dimensions, name);
      assert variables == front + [variables[|variables| - 1]];
    }
  }

  /** The data variables keep the file order of the variable list. */
  lemma {:induction false} DataVariablesSubsequence(variables: seq<string>, dimensions: seq<string>)
    ensures IsSubsequence(DataVariables(variables, dimensions), variables)
  {
    if |variables| > 0 {
      var front := variables[..|variables| - 1];
      var last := variables[|variables| - 1];
      var data := DataVariables(front, dimensions);
      DataVariablesSubsequence(front, dimensions);
      if last in dimensions {
        // `last` cannot close `data`: every data variable is outside `dimensions`.
        assert DataVariables(variables, dimensions) == data;
        if |data| > 0 {
          assert data[|data| - 1] in data;
          DataVariablesMembership(front, dimensions, data[|data| - 1]);
          assert data[|data| - 1] != last;
        }
      } else {
        assert (data + [last])[..|data|] == data;
      }
    }
  }

  /**
   * variable_name_list: LABELS gives every variable name and DIMENSIONS every
   * dimension name, in file order; DATA gives the variable names that are not
   * dimension names, in file order.
   */
  method VariableNameList(variableNames: seq<string>, dimensionNames: seq<string>, kind: Labels)
    returns (infoList: seq<string>)
    ensures kind == LABELS ==> infoList == variableNames
    ensures kind == DIMENSIONS ==> infoList == dimensionNames
    ensures kind == DATA ==> infoList == DataVariables(variableNames, dimensionNames)
  {
    infoList := [];
    var variableList: seq<string> := [];
    if kind == LABELS || kind == DATA {
      for k := 0 to |variableNames|
        invariant variableList == variableNames[..k]
      {
        variableList := variableList + [variableNames[k]];
      }
      if kind == LABELS {
        infoList := variableList;
      }
    }
    var dimensionList: seq<string> := [];
    if kind == DIMENSIONS || kind == DATA {
      for k := 0 to |dimensionNames|
        invariant dimensionList == dimensionNames[..k]
      {
        dimensionList := dimensionList + [dimensionNames[k]];
      }
      if kind == DIMENSIONS {
        infoList := dimensionList;
      }
    }
    var dataVariablesList: seq<string> := [];
    if kind == DATA {
      assert variableList == variableNames && dimensionList == dimensionNames;
      for k := 0 to |variableList|
        invariant dataVariablesList == DataVariables(variableList[..k], dimensionList)
      {
        assert variableList[..k + 1][..k] == variableList[..k];
        if variableList[k] !in dimensionList {
          dataVariablesList := dataVariablesList + [variableList[k]];
        }
      }
      assert variableList[..|variableList|] == variableList;
      infoList := dataVariablesList;
    }
  }

  // ---------------------------------------------------------------------------
  // find_index
  // ---------------------------------------------------------------------------

  /** The position of the first occurrence of `target` in `dimensions`, if any. */
  function IndexOf(dimensions: seq<string>, target: string): (r: Option<nat>)
    ensures r.None? <==> target !in dimensions
    ensures r.Some? ==> r.value < |dimensions| && dimensions[r.value] == target
    ensures r.Some? ==> forall j :: 0 <= j < r.value ==> dimensions[j] != target
    decreases |dimensions|
  {
    if |dimensions| == 0 then None
    else if dimensions[0] == target then Some(0)
    else
      match IndexOf(dimensions[1..], target)
      case None => None
      case Some(i) => Some(i + 1)
  }

  /**
   * find_index: scans the dimension names left to right and returns the first
   * position holding `target`; raises when `target` does not occur.
   */
  method FindIndex(dimensions: seq<string>, target: string) returns (r: Result<nat>)
    ensures r.Ok? ==> r.value < |dimensions| && dimensions[r.value] == target
    ensures r.Ok? ==> forall j :: 0 <= j < r.value ==> dimensions[j] != target
    ensures r.Err? <==> target !in dimensions
    ensures r.Err? ==> r.error == DimensionNotFound
    ensures IndexOf(dimensions, target) == if r.Ok? then Some(r.value) else None
  {
    for i := 0 to |dimensions|
      invariant forall j :: 0 <= j < i ==> dimensions[j] != target
    {
      if dimensions[i] == target {
        return Ok(i);
      }
    }
    return Err(DimensionNotFound);
  }

  // ---------------------------------------------------------------------------
  // FieldIndexes and find_indexes_in_dimension_list
  // ---------------------------------------------------------------------------

  /** Where each role sits among a variable's dimensions; None when unresolved. */
  datatype FieldIndexes = FieldIndexes(time: Option<nat>, depth: Option<nat>, lat: Option<nat>, lon: Option<nat>)

  /** FieldIndexes() as initialised: every role unresolved. */
  const UNRESOLVED: FieldIndexes := FieldIndexes(None, None, None, None)

  /**
   * The role labels of a commands list: for each role, the position in
   * info_list of the variable the user named for it, or None.
   */
  datatype RoleLabels = RoleLabels(time: Option<nat>, depth: Option<nat>, lat: Option<nat>, lon: Option<nat>)

  /** One role: nothing to do when undeclared, else find_index of its name. */
  function ResolveRole(dimensions: seq<string>, infoList: seq<string>, roleLabel: Option<nat>): (r: Result<Option<nat>>)
    ensures roleLabel.None? ==> r == Ok(None)
    ensures r.Ok? ==> (r.value.Some? <==> roleLabel.Some?)
    ensures r.Err? ==> r.error == IndexOutOfRange || r.error == DimensionNotFound
    ensures r == Err(IndexOutOfRange) <==> roleLabel.Some? && roleLabel.value >= |infoList|
  {
    match roleLabel
    case None => Ok(None)
    case Some(l) =>
      if l >= |infoList| then Err(IndexOutOfRange)
      else
        match IndexOf(dimensions, infoList[l])
        case None => Err(DimensionNotFound)
        case Some(i) => Ok(Some(i))
  }

  /** The FieldIndexes find_indexes_in_dimension_list produces, roles in the order time, depth, lat, lon. */
  function ResolveIndexes(dimensions: seq<string>, infoList: seq<string>, roles: RoleLabels): (r: Result<FieldIndexes>)
    ensures r.Err? ==> r.error == IndexOutOfRange || r.error == DimensionNotFound
    ensures r.Ok? ==>
              && (r.value.time.Some? <==> roles.time.Some?)
              && (r.value.depth.Some? <==> roles.depth.Some?)
              && (r.value.lat.Some? <==> roles.lat.Some?)
              && (r.value.lon.Some? <==> roles.lon.Some?)
    ensures roles == RoleLabels(None, None, None, None) ==> r == Ok(UNRESOLVED)
  {
    var time :- ResolveRole(dimensions, infoList, roles.time);
    var depth :- ResolveRole(dimensions, infoList, roles.depth);
    var lat :- ResolveRole(dimensions, infoList, roles.lat);
    var lon :- ResolveRole(dimensions, infoList, roles.lon);
    Ok(FieldIndexes(time, depth, lat, lon))
  }

  /** A declared role can be resolved: its label indexes info_list and that name is a dimension. */
  predicate Resolvable(dimensions: seq<string>, infoList: seq<string>, roleLabel: Option<nat>) {
    roleLabel.Some? ==> roleLabel.value < |infoList| && infoList[roleLabel.value] in dimensions
  }

  /** A role's index is set exactly when it is declared, and then it is the leftmost match of its name. */
  predicate ResolvedAs(dimensions: seq<string>, infoList: seq<string>, roleLabel: Option<nat>, index: Option<nat>) {
    && (index.Some? <==> roleLabel.Some?)
    && (roleLabel.Some? ==>
          && roleLabel.value < |infoList|
          && index.value < |dimensions|
          && dimensions[index.value] == infoList[roleLabel.value]
          && forall j :: 0 <= j < index.value ==> dimensions[j] != infoList[roleLabel.value])
  }

  /**
   * find_indexes_in_dimension_list succeeds exactly when every declared role
   * can be resolved; each declared role then gets the leftmost position of its
   * name and each undeclared role stays None.
   */
  lemma ResolveIndexesCorrect(dimensions: seq<string>, infoList: seq<string>, roles: RoleLabels)
    ensures ResolveIndexes(dimensions, infoList, roles).Ok? <==>
              && Resolvable(dimensions, infoList, roles.time)
              && Resolvable(dimensions, infoList, roles.depth)
              && Resolvable(dimensions, infoList, roles.lat)
              && Resolvable(dimensions, infoList, roles.lon)
    ensures ResolveIndexes(dimensions, infoList, roles).Ok? ==>
              var fi := ResolveIndexes(dimensions, infoList, roles).value;
              && ResolvedAs(dimensions, infoList, roles.time, fi.time)
              && ResolvedAs(dimensions, infoList, roles.depth, fi.depth)
              && ResolvedAs(dimensions, infoList, roles.lat, fi.lat)
              && ResolvedAs(dimensions, infoList, roles.lon, fi.lon)
  {
    ResolveRoleCorrect(dimensions, infoList, roles.time);
    ResolveRoleCorrect(dimensions, infoList, roles.depth);
    ResolveRoleCorrect(dimensions, infoList, roles.lat);
    ResolveRoleCorrect(dimensions, infoList, roles.lon);
  }

  lemma ResolveRoleCorrect(dimensions: seq<string>, infoList: seq<string>, roleLabel: Option<nat>)
    ensures ResolveRole(dimensions, infoList, roleLabel).Ok? <==> Resolvable(dimensions, infoList, roleLabel)
    ensures ResolveRole(dimensions, infoList, roleLabel).Ok? ==>
              ResolvedAs(dimensions, infoList, roleLabel, ResolveRole(dimensions, infoList, roleLabel).value)
  {
  }

  /**
   * find_indexes_in_dimension_list: starts from an unresolved FieldIndexes and
   * sets the index of each declared role in turn, raising on the first role
   * whose label or name cannot be resolved.
   */
  method FindIndexesInDimensionList(dimensions: seq<string>, infoList: seq<string>, roles: RoleLabels)
    returns (r: Result<FieldIndexes>)
    ensures r == ResolveIndexes(dimensions, infoList, roles)
  {
    var fieldIndexes := UNRESOLVED;
    if roles.time.Some? {
      var i := FindRole(dimensions, infoList, roles.time.value);
      if i.Err? {
        return Err(i.error);
      }
      fieldIndexes := fieldIndexes.(time := Some(i.value));
    }
    if roles.depth.Some? {
      var i := FindRole(dimensions, infoList, roles.depth.value);
      if i.Err? {
        return Err(i.error);
      }
      fieldIndexes := fieldIndexes.(depth := Some(i.value));
    }
    if roles.lat.Some? {
      var i := FindRole(dimensions, infoList, roles.lat.value);
      if i.Err? {
        return Err(i.error);
      }
      fieldIndexes := fieldIndexes.(lat := Some(i.value));
    }
    if roles.lon.Some? {
      var i := FindRole(dimensions, infoList, roles.lon.value);
      if i.Err? {
        return Err(i.error);
      }
      fieldIndexes := fieldIndexes.(lon := Some(i.value));
    }
    return Ok(fieldIndexes);
  }

  /** `find_index(dimensions, info_list[label])`, with the IndexError of the list lookup. */
  method FindRole(dimensions: seq<string>, infoList: seq<string>, roleLabel: nat) returns (r: Result<nat>)
    ensures r.Ok? <==> ResolveRole(dimensions, infoList, Some(roleLabel)).Ok?
    ensures r.Ok? ==> ResolveRole(dimensions, infoList, Some(roleLabel)).value == Some(r.value)
    ensures r.Err? ==> r.error == ResolveRole(dimensions, infoList, Some(roleLabel)).error
  {
    if roleLabel >= |infoList| {
      return Err(IndexOutOfRange);
    }
    r := FindIndex(dimensions, infoList[roleLabel]);
  }
}
