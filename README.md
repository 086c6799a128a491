# NOM core, modelled in Dafny

NOM reads a netCDF file, asks the user a series of questions (or reads the
answers from a script file), and draws a scalar or vector map of one of the
file's variables. This project models the deterministic logic under the I/O,
the prompts and the plotting, in three parts:

- **Dimension index resolution** (`netcdf_file_handler.dfy`, module
  `NetCDFFileHandler`). It covers the name lists `variable_name_list` returns
  for each `Labels` kind and `find_index` (the leftmost match of a dimension
  name, or an error). It also covers `find_indexes_in_dimension_list`, which
  fills a `FieldIndexes` record, resolving only the roles (time, depth, lat,
  lon) whose label is set. Variable names, dimension names and a variable's
  dimension list are passed in as sequences of strings.
- **Field orientation and vector assembly** (`omnom.dfy`, module `Omnom`,
  over `ndarrays.dfy`, module `NdArrays`). An n-dimensional array is a shape
  plus an element lookup on index tuples. `np.array([a])` adds an outer axis
  of extent 1. `a.transpose(p)` takes output axis k from input axis p[k] and
  refuses a p that is not a permutation. `a[i][j]` takes a sub-array.
  `arrange_fields` brings any field into the canonical order
  time, depth, lat, lon. `make_polar_components` and
  `make_cartesian_components` arrange two fields and combine them element by
  element. The trigonometric and square-root arithmetic is left open as
  functions passed in. `make_map_scalar`, `make_map_vectorial` and `make_map`
  select the lat × lon slice at the chosen time and depth.
- **Answer acceptance and script recording** (`input_manager.dfy`, module
  `InputManager`). It covers the `CommandsList` and `MapCommandsList`
  classes and their constructors, the membership validators, and the
  `send_query` loop, which asks until it gets an offered answer that is not
  one of the special words `ll`, `banana?` and `turtle`. It also covers the
  other `send_query_*` variants, `add_to_script` (which extends the script
  list in place), and the `get_if_script_file`, `get_time`, `get_depth` and
  `update_info_list_in_command_list` steps that store answers in the
  commands list.
  The interactive prompt is a *feed*: the sequence of answers the user (or a
  script file) would type. A prompt with a validator skips the answers the
  validator refuses. `FirstAccepted(validator, feed)` is the position of the
  answer the prompt returns. When the feed runs out, the call returns `None`.

`prelude.dfy` (module `Prelude`) holds `Option`, `Result` and the error kinds
(one per exception the Python code raises). It also holds Python truthiness
of an optional flag and `range(n)`. `decimal.dfy` (module `Decimal`) models
`str(n)` and `int(s)` on natural numbers, which the query code uses to offer
numbers as strings and read the chosen one back.

The imperative parts of the source keep their form. `find_index` and
`variable_name_list` are methods with loops, each proved against a functional
reference definition. `find_indexes_in_dimension_list` is a method with four
conditional assignments to the `FieldIndexes` record, proved equal to the
functional `ResolveIndexes`. The prompt
and `send_query` are loops over the feed. The commands lists and the script
are classes whose fields the methods update. The pure parts (`arrange_fields`
and the component and map functions) are functions.

## Model

| member | source | states |
|---|---|---|
| NetCDFFileHandler.VariableNameList | netCDF_file_handler.py:135-164 | LABELS gives every variable name in file order, DIMENSIONS every dimension name in order, DATA the data variables (DataVariables) |
| NetCDFFileHandler.DataVariablesMembership | netCDF_file_handler.py:158-163 | a name is a data variable exactly when it is a variable name and not a dimension name, so DATA is disjoint from DIMENSIONS |
| NetCDFFileHandler.DataVariablesSubsequence | netCDF_file_handler.py:158-163 | the data variables are a subsequence of the variable names: file order is kept |
| NetCDFFileHandler.IndexOf | netCDF_file_handler.py:283-299 | reference search: None exactly when the target is absent, otherwise an in-range position holding the target with no earlier occurrence |
| NetCDFFileHandler.FindIndex | netCDF_file_handler.py:283-299 | the loop returns a position i < \|dimensions\| holding the target with no match before it, fails with DimensionNotFound exactly when the target does not occur, and agrees with IndexOf |
| NetCDFFileHandler.ResolveRole | netCDF_file_handler.py:272-279 | an undeclared role resolves to None and a declared one to some index; a label beyond info_list gives IndexOutOfRange, and the only other error is DimensionNotFound |
| NetCDFFileHandler.ResolveIndexes | netCDF_file_handler.py:263-280 | a resolved record sets exactly the declared roles; every error is IndexOutOfRange or DimensionNotFound; with no role declared it is the all-None record |
| NetCDFFileHandler.ResolveIndexesCorrect | netCDF_file_handler.py:263-280 | resolution succeeds exactly when every declared role's label indexes info_list and names a dimension; then each declared role holds the leftmost position of that name and each undeclared role stays None |
| NetCDFFileHandler.ResolveRoleCorrect | netCDF_file_handler.py:272-279 | the same for one role |
| NetCDFFileHandler.FindIndexesInDimensionList | netCDF_file_handler.py:250-280 | starting from an all-None FieldIndexes and setting the declared roles in the order time, depth, lat, lon yields exactly ResolveIndexes, including the first error |
| NetCDFFileHandler.FindRole | netCDF_file_handler.py:272-279 | `find_index(dims, info_list[label])` succeeds, fails and returns as ResolveRole says, with IndexOutOfRange for a label beyond info_list |
| NdArrays.Wrap | omnom.py:176-177 | `np.array([field])` has shape [1] + the field's shape |
| NdArrays.WrapAt | omnom.py:176-177 | the wrapped array's element at an index tuple is the field's element at the tuple without its first index |
| NdArrays.Transpose | omnom.py:173-174 | transpose succeeds exactly when the axes are a permutation of the array's axes (AxesDontMatch otherwise), and output axis k has the extent of input axis axes[k] |
| NdArrays.TransposeAt | omnom.py:173-174 | the transposed element at idx is the input element at the tuple that holds idx[k] on axis axes[k], and that tuple is in bounds |
| NdArrays.InverseIsPermutation | omnom.py:173-174 | the inverse of an axis permutation is an axis permutation and undoes it on both sides |
| NdArrays.PermutationCovers | omnom.py:173-174 | n distinct axes below n include every axis below n |
| NdArrays.TransposeRoundTrip | omnom.py:173-174 | transposing by the inverse permutation gives back the original shape and every element |
| NdArrays.Pointwise | omnom.py:117-118 | an element-wise operation succeeds exactly on equal shapes (ShapeMismatch otherwise) and keeps the shape |
| NdArrays.PointwiseAt | omnom.py:117-118 | definition, by element: each element of the result is the operation applied to the two elements at the same index |
| NdArrays.Index2 | omnom.py:60 | `a[i][j]` succeeds exactly when the array has two leading axes with i and j below their extents (IndexOutOfRange otherwise), and has the remaining axes |
| NdArrays.Index2At | omnom.py:60 | definition, by element: its element at idx is the array's element at [i, j] + idx |
| Omnom.FieldName | omnom.py:51 | `info_list[label]`: present exactly when both are set and the label is in range; NoneValue or IndexOutOfRange otherwise |
| Omnom.GetVariable | netCDF_file_handler.py:210-246 | definition of the file lookup: reading a variable by name succeeds exactly when the file has it |
| Omnom.ArrangeFields | omnom.py:155-188 | every arranged field has exactly four axes |
| Omnom.ArrangeFieldsDefined | omnom.py:172-186 | arrange_fields succeeds exactly when the indexes its flag case needs are set and form a permutation of the field's axes (so rank 4, 3, 3 or 2); NoneValue when an index is unset, AxesDontMatch when they are not a permutation |
| Omnom.TimeWrapAxes | omnom.py:178 | the shifted axes of the time-only case are a permutation of rank n+1 exactly when the raw ones are of rank n |
| Omnom.DepthWrapAxes | omnom.py:182 | the same for the depth-only case |
| Omnom.TwoWrapAxes | omnom.py:186 | the same for the case with two added axes, rank n+2 |
| Omnom.ArrangeFieldsShape | omnom.py:172-186 | the canonical shape in each case: (s[time], s[depth], s[lat], s[lon]), (s[time], 1, s[lat], s[lon]), (1, s[depth], s[lat], s[lon]) or (1, 1, s[lat], s[lon]) |
| Omnom.TimeShape | omnom.py:175-178 | the shape (s[time], 1, s[lat], s[lon]) of the time-only case |
| Omnom.DepthShape | omnom.py:179-182 | the shape (1, s[depth], s[lat], s[lon]) of the depth-only case |
| Omnom.PlaneShape | omnom.py:183-186 | the shape (1, 1, s[lat], s[lon]) of the case with neither |
| Omnom.TransposeWrapAt | omnom.py:176-178 | an element of a transposed wrapped array is the field's element at the raw tuple its shifted axes name |
| Omnom.ArrangeFieldsAt | omnom.py:172-186 | in every case, the arranged element at a canonical index is the raw element at the tuple that puts the time, depth, lat and lon indexes on the raw axes FieldIndexes names |
| Omnom.BothAt | omnom.py:172-174 | the same, for a field that depends on both time and depth |
| Omnom.TimeAt | omnom.py:175-178 | the same, time only |
| Omnom.DepthAt | omnom.py:179-182 | the same, depth only |
| Omnom.PlaneAt | omnom.py:183-186 | the same, neither |
| Omnom.TimeOnlyAt | omnom.py:175-178 | element relation of the time-only transpose of the wrapped field |
| Omnom.DepthOnlyAt | omnom.py:179-182 | element relation of the depth-only transpose of the wrapped field |
| Omnom.NeitherAt | omnom.py:183-186 | element relation of the transpose of the twice-wrapped field |
| Omnom.ArrangeFieldsInvertible | omnom.py:172-174 | with both flags set, transposing the arranged field by the inverse index permutation recovers the raw field, shape and elements |
| Omnom.ArrangeFieldsPlane | omnom.py:183-186 | with neither flag, `arranged[0][0]` is the raw two-axis field transposed to (lat, lon) order |
| Omnom.ArrangeFieldsPlaneAt | omnom.py:183-186 | the same, one element at a time |
| Omnom.ArrangeFieldsExample | omnom.py:175-178 | raw dimensions [lon, time, lat] of extents (4, 3, 5), labelled time, lat, lon, resolve to time=1, lat=2, lon=0 and arrange to shape (3, 1, 5, 4) |
| Omnom.Slice | omnom.py:81-87 | `field[current_time_value][current_depth_value]` exists exactly when the field has two leading axes and both positions are below their extents, IndexOutOfRange otherwise, and has the field's remaining axes |
| Omnom.SliceOfArranged | omnom.py:60 | the `[time][depth]` slice of an arranged field exists exactly when both positions are below the first two extents, and is s[lat] × s[lon]; an added axis has extent 1, so the initial position 0 always works for it |
| Omnom.SliceAtInitialPositions | omnom.py:60 | a MapCommandsList still at positions 0 slices an arranged field exactly when its time and depth axes are non-empty, and always when the field depends on neither time nor depth |
| Omnom.ArrangedField | omnom.py:51-57 | reading and arranging a labelled field gives four axes |
| Omnom.ArrangedFieldSteps | omnom.py:51-57 | it succeeds exactly when the label, the variable lookup, the index resolution and arrange_fields all succeed, and then it is arrange_fields of that variable |
| Omnom.MakePolarComponents | omnom.py:91-119 | succeeds exactly when both fields arrange to the same shape; the magnitude comes back unchanged, and the lat and lon components have its shape and are the element-wise images of (magnitude, angle) |
| Omnom.MakeCartesianComponents | omnom.py:122-152 | succeeds exactly when both components arrange to the same shape; they come back arranged, and the magnitude shares their shape and is element-wise norm(lat, lon) |
| Omnom.PolarMagnitudeConsistent | omnom.py:114-119 | when norm recovers every admissible magnitude (m >= 0 for cos, sin and sqrt) from its two components and every element of the magnitude field is admissible, the Cartesian magnitude of the polar components is the polar magnitude at every in-bounds index |
| Omnom.MakeMapScalar | omnom.py:39-60 | the scalar contour exists exactly when the field arranges and the slice exists; it has the lat × lon shape and its elements are the arranged field's at [time, depth] + idx |
| Omnom.MakeMapVectorial | omnom.py:63-88 | is_polar picks the decomposition; the drawing exists exactly when it succeeds and the magnitude's slice exists, and the contour and both arrow slices share the lat × lon shape |
| Omnom.MakeMap | omnom.py:24-35 | a vector map exactly when is_vector_field is truthy (None counts as false), a scalar map otherwise |
| InputManager.CommandsList.constructor | InputManager.py:41-51 | every field None, current time and depth values 0 |
| InputManager.MapCommandsList.Empty | InputManager.py:86-128 | the CommandsList defaults plus the map defaults: labels and flags None, quiver_color 'b', quiver_space 15, resolution 'c', projection 'gall' |
| InputManager.MapCommandsList.Copy | InputManager.py:86-128 | the ten base fields copied from the argument, plus the map defaults |
| InputManager.MapCommandsList.New | InputManager.py:86-128 | fails with TooManyArguments exactly when given more than one argument; otherwise a fresh object with the map defaults whose base fields come from the argument or from the defaults |
| InputManager.Script.constructor | InputManager.py:525-532 | a script starts empty |
| InputManager.AddToScript | InputManager.py:525-532 | the script becomes its old contents followed by the new answers, and nothing else changes |
| InputManager.ValidateAnswer | InputManager.py:651-657 | definition of the validator: true exactly when the answer occurs in the offered strings |
| InputManager.ValidateAnswerScriptFile | InputManager.py:642-648 | definition of the validator: true exactly when the answer occurs in the offered strings |
| InputManager.Stringify | InputManager.py:549 | definition: `[str(a) for a in possible_answers]`, element by element |
| InputManager.AcceptedAnswers | InputManager.py:549-550 | the validator's list is the offered answers as strings, in order, followed by the three special words |
| InputManager.EndsQuery | InputManager.py:564 | definition of the loop's exit test on an answer; its meaning is stated by EndsQueryOnOfferedAnswer |
| InputManager.IsFinalAnswer | InputManager.py:564 | definition: accepted and not a special word; its meaning is stated by EndsQueryOnOfferedAnswer |
| InputManager.EndsQueryOnOfferedAnswer | InputManager.py:549-565 | send_query's exit test holds exactly for the offered answers as strings: no `str` of a number is a special word |
| InputManager.OfferedAnswerValue | InputManager.py:410-411 | an offered answer consists of digits and `int` reads it back as one of the offered numbers |
| InputManager.FirstAccepted | InputManager.py:555-563 | the position the prompt stops at is within the feed, and the validator accepts the answer there |
| InputManager.RefusedBeforeFirstAccepted | InputManager.py:555-563 | every answer before that position is refused |
| InputManager.FirstAcceptedUnique | InputManager.py:555-563 | any position that is accepted and has only refused answers before it is the one FirstAccepted gives |
| InputManager.Prompt | InputManager.py:555-563 | the prompt returns the first accepted answer and the feed after it, or None and nothing when no answer is accepted |
| InputManager.EndingAnswersAreAccepted | InputManager.py:549-565 | every answer that ends send_query's loop passes its validator |
| InputManager.QueryRound | InputManager.py:555-571 | after one round, no answer ends the query before the one the prompt returned; the query ends there if that answer ends it |
| InputManager.RefusedAnswersDoNotEnd | InputManager.py:555-565 | answers the prompt skips cannot end the query |
| InputManager.NoEndingBefore | InputManager.py:555-565 | when none of the first m answers is accepted, the first accepted one is at m or later |
| InputManager.SendQuery | InputManager.py:537-577 | returns the first answer in the feed that is accepted and not special, with the feed after it, and appends that answer alone to the script (special answers are not recorded); with none, returns None and leaves the script unchanged |
| InputManager.QueryAnswerIsOffered | InputManager.py:549-577 | the answer send_query returns is an offered answer, never a special word, and `int` of it is an offered number |
| InputManager.SendQueryScriptFile | InputManager.py:580-606 | returns the first offered answer, but always appends "0" to the script, whatever the answer |
| InputManager.SendQueryPath | InputManager.py:609-621 | returns the next answer as typed and appends it to the script |
| InputManager.SendQueryPathNewScript | InputManager.py:624-635 | returns the next answer as typed and records nothing |
| InputManager.GetIfScriptFile | InputManager.py:184-221 | the answer is "0" or "1" and the script gets "0" either way; make_script_file becomes whether the answer was "1"; only then is the next answer taken as the script address |
| InputManager.GetTime | InputManager.py:390-412 | with a time vector of size at most 1 nothing is asked and current_time_value keeps its value; otherwise it becomes the chosen position, which is below the size and whose string is the recorded answer |
| InputManager.GetDepth | InputManager.py:415-436 | the same for current_depth_value and the depth vector |
| InputManager.UpdateInfoListInCommandList | InputManager.py:472-481 | info_list becomes every variable name of the file, in order |
| Decimal.NatToString | InputManager.py:549 | `str(n)` is a non-empty string of digits |
| Decimal.ParseNat | InputManager.py:411 | definition of `int(s)` on decimal digits; its meaning is stated by ParseNatToString |
| Decimal.ParseNatToString | InputManager.py:411 | `int(str(n)) == n` |
| Decimal.NatToStringInjective | InputManager.py:549 | distinct numbers have distinct strings |

## Left out

- netCDF access (`open_netcdf`, `get_values`, `dimensions_of_variable_list`, `get_time_vector_size`, `get_depth_vector_size`) is library I/O. The model takes the file as a map from variable names to dimension lists and arrays, and takes the vector sizes as parameters. Filling masked values with NaN is not modelled.
- `show_info` and `print_var_object` only print. `get_dimensions_values`, `get_data_variables_values` and `get_all_values` only wrap `get_values`.
- The `cos`/`sin` of the polar projection and the `sqrt` of the Cartesian magnitude are floating-point arithmetic. They are parameters (`latOf`, `lonOf`, `norm`), and no trigonometric identity is proved; PolarMagnitudeConsistent takes the identity sqrt((m cos a)² + (m sin a)²) = m, for the admissible magnitudes, as a hypothesis.
- `make_map_base` (Basemap projection, meshgrid, coastlines, coordinate means) and all `contourf`/`quiver` rendering are left out. That includes the `[::quiver_space, ::quiver_space]` subsampling of the arrows; the model returns the full slices that would be drawn.
- numpy broadcasting is not modelled: element-wise operations on arrays of different shapes give `ShapeMismatch`.
- Labels are natural numbers, so Python's negative list indexes are not modelled.
- The prompt library is abstracted as a feed of answers, and so is the `is_reading_from_file` switch. Completers, error messages, `input()`, `print_labels_list`, `print_turtle` and the printing inside `send_query` are left out, as is `get_plot_name_location_and_format`. When the feed runs out, the model returns `None` (or `false`); the Python program would wait for input or fail on end of file.
- InputManager.GetTime: when the size is at most 1, Python's `get_time` returns `None` rather than `commands_list`. The model only states that nothing is asked and nothing changes.
- InputManager.GetDepth: the same, for `get_depth`.
- NdArrays.Wrap: its contract states only the shape; the elements are stated by NdArrays.WrapAt.
- `GraphCommandsList`, `get_map_choose_parameters`, `get_graph_choose_parameters`, `edit_mode`, `get_name_and_location` and `get_plot_type` are left out. They are question sequences built from the modelled steps, or belong to the graph path.
- OutputManager.py and main.py are not part of this model.
