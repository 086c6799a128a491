/**
 * The answer-handling logic of InputManager.py: the commands-list records and
 * their constructors, the acceptance test of an answer, the question loop of
 * send_query, the recording of raw answers in the script list, and the
 * get_* steps that store an accepted answer in the commands list.
 *
 * The interactive prompt is modelled as a feed: the sequence of answers the
 * user (or a script file) would type, consumed from the front. A validating
 * prompt skips the answers its validator refuses, as the prompt library does;
 * when the feed runs out, the call reports that no answer came.
 */
module InputManager {
  import opened Prelude
  import opened Decimal
  import opened NetCDFFileHandler

  // ---------------------------------------------------------------------------
  // CommandsList and MapCommandsList
  // ---------------------------------------------------------------------------

  /** The ten fields every commands list has, as one value. */
  datatype BaseFields = BaseFields(
    infoList: Option<seq<string>>,
    netcdfPath: Option<string>,
    plotType: Option<int>,
    makeScriptFile: Option<bool>,
    scriptFilePrintAddress: Option<string>,
    nameOfFig: Option<string>,
    figFormat: Option<string>,
    figLocation: Option<string>,
    currentTimeValue: nat,
    currentDepthValue: nat)

  /** CommandsList() as initialised: everything None, time and depth values 0. */
  const INITIAL_BASE: BaseFields := BaseFields(None, None, None, None, None, None, None, None, 0, 0)

  class CommandsList {
    var infoList: Option<seq<string>>
    var netcdfPath: Option<string>
    var plotType: Option<int>
    var makeScriptFile: Option<bool>
    var scriptFilePrintAddress: Option<string>
    var nameOfFig: Option<string>
    var figFormat: Option<string>
    var figLocation: Option<string>
    var currentTimeValue: nat
    var currentDepthValue: nat

    function Base(): BaseFields
      reads this
    {
      BaseFields(infoList, netcdfPath, plotType, makeScriptFile, scriptFilePrintAddress,
                 nameOfFig, figFormat, figLocation, currentTimeValue, currentDepthValue)
    }

    constructor ()
      ensures Base() == INITIAL_BASE
    {
      infoList, netcdfPath, plotType, makeScriptFile := None, None, None, None;
      scriptFilePrintAddress, nameOfFig, figFormat, figLocation := None, None, None, None;
      currentTimeValue, currentDepthValue := 0, 0;
    }
  }

  /**
   * What omnom.py reads from a MapCommandsList: the label list, the role and
   * component labels, the flags, and the chosen time and depth positions.
   */
  datatype MapCommands = MapCommands(
    infoList: Option<seq<string>>,
    roles: RoleLabels,
    isVectorField: Option<bool>,
    scalarFieldLabel: Option<nat>,
    isPolar: Option<bool>,
    lonComponent: Option<nat>,
    latComponent: Option<nat>,
    radComponent: Option<nat>,
    angComponent: Option<nat>,
    isDependsOnTime: Option<bool>,
    isDependsOnDepth: Option<bool>,
    currentTimeValue: nat,
    currentDepthValue: nat)

  class MapCommandsList {
    // the fields of CommandsList
    var infoList: Option<seq<string>>
    var netcdfPath: Option<string>
    var plotType: Option<int>
    var makeScriptFile: Option<bool>
    var scriptFilePrintAddress: Option<string>
    var nameOfFig: Option<string>
    var figFormat: Option<string>
    var figLocation: Option<string>
    var currentTimeValue: nat
    var currentDepthValue: nat
    // the map's labels and flags
    var lat: Option<nat>
    var lon: Option<nat>
    var time: Option<nat>
    var depth: Option<nat>
    var isVectorField: Option<bool>
    var scalarFieldLabel: Option<nat>
    var isPolar: Option<bool>
    var lonComponent: Option<nat>
    var latComponent: Option<nat>
    var radComponent: Option<nat>
    var angComponent: Option<nat>
    var isDependsOnTime: Option<bool>
    var isDependsOnDepth: Option<bool>
    // preferences
    var quiverColor: string
    var quiverSpace: int
    var width: Option<int>
    var height: Option<int>
    var lonCenter: Option<real>
    var latCenter: Option<real>
    var lonLowerLeftCorner: Option<real>
    var latLowerLeftCorner: Option<real>
    var lonUpperRightCorner: Option<real>
    var latUpperRightCorner: Option<real>
    var resolution: string
    var projection: string

    function Base(): BaseFields
      reads this
    {
      BaseFields(infoList, netcdfPath, plotType, makeScriptFile, scriptFilePrintAddress,
                 nameOfFig, figFormat, figLocation, currentTimeValue, currentDepthValue)
    }

    /** The fields omnom.py reads, as the value MapCommands. */
    function Commands(): MapCommands
      reads this
    {
      MapCommands(infoList, RoleLabels(time, depth, lat, lon), isVectorField, scalarFieldLabel, isPolar,
                  lonComponent, latComponent, radComponent, angComponent,
                  isDependsOnTime, isDependsOnDepth, currentTimeValue, currentDepthValue)
    }

    /**
     * The map fields as MapCommandsList.__init__ leaves them: every label and
     * flag None, arrows blue every 15th point, crude resolution, Gall projection.
     */
    predicate HasMapDefaults()
      reads this
    {
      && lat == None && lon == None && time == None && depth == None
      && isVectorField == None && scalarFieldLabel == None && isPolar == None
      && lonComponent == None && latComponent == None && radComponent == None && angComponent == None
      && isDependsOnTime == None && isDependsOnDepth == None
      && quiverColor == "b" && quiverSpace == 15
      && width == None && height == None
      && lonCenter == None && latCenter == None
      && lonLowerLeftCorner == None && latLowerLeftCorner == None
      && lonUpperRightCorner == None && latUpperRightCorner == None
      && resolution == "c" && projection == "gall"
    }

    /** MapCommandsList(): the CommandsList defaults and the map defaults. */
    constructor Empty()
      ensures Base() == INITIAL_BASE
      ensures HasMapDefaults()
    {
      infoList, netcdfPath, plotType, makeScriptFile := None, None, None, None;
      scriptFilePrintAddress, nameOfFig, figFormat, figLocation := None, None, None, None;
      currentTimeValue, currentDepthValue := 0, 0;
      lat, lon, time, depth := None, None, None, None;
      isVectorField, scalarFieldLabel, isPolar := None, None, None;
      lonComponent, latComponent, radComponent, angComponent := None, None, None, None;
      isDependsOnTime, isDependsOnDepth := None, None;
      quiverColor, quiverSpace := "b", 15;
      width, height := None, None;
      lonCenter, latCenter := None, None;
      lonLowerLeftCorner, latLowerLeftCorner := None, None;
      lonUpperRightCorner, latUpperRightCorner := None, None;
      resolution, projection := "c", "gall";
    }

    /** MapCommandsList(x): the ten fields of x copied, and the map defaults. */
    constructor Copy(x: CommandsList)
      ensures Base() == x.Base()
      ensures HasMapDefaults()
    {
      infoList := x.infoList;
      netcdfPath := x.netcdfPath;
      plotType := x.plotType;
      makeScriptFile := x.makeScriptFile;
      scriptFilePrintAddress := x.scriptFilePrintAddress;
      nameOfFig := x.nameOfFig;
      figFormat := x.figFormat;
      figLocation := x.figLocation;
      currentTimeValue := x.currentTimeValue;
      currentDepthValue := x.currentDepthValue;
      lat, lon, time, depth := None, None, None, None;
      isVectorField, scalarFieldLabel, isPolar := None, None, None;
      lonComponent, latComponent, radComponent, angComponent := None, None, None, None;
      isDependsOnTime, isDependsOnDepth := None, None;
      quiverColor, quiverSpace := "b", 15;
      width, height := None, None;
      lonCenter, latCenter := None, None;
      lonLowerLeftCorner, latLowerLeftCorner := None, None;
      lonUpperRightCorner, latUpperRightCorner := None, None;
      resolution, projection := "c", "gall";
    }

    /**
     * MapCommandsList(*args): copies from its one argument, starts from the
     * defaults with none, and raises with more than one.
     */
    static method New(args: seq<CommandsList>) returns (r: Result<MapCommandsList>)
      ensures r.Err? <==> |args| > 1
      ensures r.Err? ==> r.error == TooManyArguments
      ensures r.Ok? ==> fresh(r.value) && r.value.HasMapDefaults()
      ensures r.Ok? && |args| == 1 ==> r.value.Base() == args[0].Base()
      ensures r.Ok? && |args| == 0 ==> r.value.Base() == INITIAL_BASE
    {
      if |args| == 1 {
        var m := new MapCommandsList.Copy(args[0]);
        r := Ok(m);
      } else if |args| == 0 {
        var m := new MapCommandsList.Empty();
        r := Ok(m);
      } else {
        r := Err(TooManyArguments);
      }
    }
  }

  // ---------------------------------------------------------------------------
  // the script of raw answers
  // ---------------------------------------------------------------------------

  /** The list of the user's raw answers, in the order they were given. */
  class Script {
    var entries: seq<string>

    constructor ()
      ensures entries == []
    {
      entries := [];
    }
  }

  /** add_to_script: extends the script with the new answers, in order. */
  method AddToScript(script: Script, newCommands: seq<string>)
    modifies script
    ensures script.entries == old(script.entries) + newCommands
  {
    script.entries := script.entries + newCommands;
  }

  // ---------------------------------------------------------------------------
  // validating answers
  // ---------------------------------------------------------------------------

  /** validate_answer_script_file: whether the answer is one of the offered strings. */
  function ValidateAnswerScriptFile(possibleAnswerString: seq<string>, answer: string): (r: bool)
    ensures r <==> exists i :: 0 <= i < |possibleAnswerString| && possibleAnswerString[i] == answer
  {
    answer in possibleAnswerString
  }

  /** validate_answer: whether the answer is one of the offered strings. */
  function ValidateAnswer(possibleAnswerString: seq<string>, answer: string): (r: bool)
    ensures r <==> exists i :: 0 <= i < |possibleAnswerString| && possibleAnswerString[i] == answer
  {
    answer in possibleAnswerString
  }

  /** `partial(validate_answer, possible_answer_string)` */
  function PartialValidateAnswer(possibleAnswerString: seq<string>): string -> bool {
    answer => ValidateAnswer(possibleAnswerString, answer)
  }

  /** `partial(validate_answer_script_file, possible_answer_string)` */
  function PartialValidateAnswerScriptFile(possibleAnswerString: seq<string>): string -> bool {
    answer => ValidateAnswerScriptFile(possibleAnswerString, answer)
  }

  /** A prompt with no validator takes whatever is typed. */
  function AcceptAnything(): string -> bool {
    answer => true
  }

  /** `[str(a) for a in possible_answers]` */
  function Stringify(possibleAnswers: seq<nat>): (r: seq<string>)
    ensures |r| == |possibleAnswers|
    ensures forall i :: 0 <= i < |r| ==> r[i] == NatToString(possibleAnswers[i])
  {
    seq(|possibleAnswers|, (i: int) requires 0 <= i < |possibleAnswers| => NatToString(possibleAnswers[i]))
  }

  /** The answers that make send_query show something and ask again. */
  const SPECIAL_ANSWERS: seq<string> := ["ll", "banana?", "turtle"]

  /** The strings send_query's validator accepts: the offered answers, then the special ones. */
  function AcceptedAnswers(possibleAnswers: seq<nat>): (r: seq<string>)
    ensures |r| == |possibleAnswers| + |SPECIAL_ANSWERS|
    ensures forall i :: 0 <= i < |possibleAnswers| ==> r[i] == NatToString(possibleAnswers[i])
    ensures r[|possibleAnswers|..] == SPECIAL_ANSWERS
  {
    Stringify(possibleAnswers) + SPECIAL_ANSWERS
  }

  /** The test that ends send_query's loop: an accepted answer that is not a special one. */
  function EndsQuery(possibleAnswers: seq<nat>): string -> bool {
    answer => IsFinalAnswer(AcceptedAnswers(possibleAnswers), answer)
  }

  /** send_query's exit test: an accepted answer that is not one of the special ones. */
  predicate IsFinalAnswer(possibleAnswerString: seq<string>, answer: string) {
    answer !in SPECIAL_ANSWERS && answer in possibleAnswerString
  }

  /**
   * send_query ends exactly on one of the offered answers as a string: no
   * `str` of a number is a special answer.
   */
  lemma EndsQueryOnOfferedAnswer(possibleAnswers: seq<nat>, answer: string)
    ensures EndsQuery(possibleAnswers)(answer) <==> answer in Stringify(possibleAnswers)
  {
    if answer in Stringify(possibleAnswers) {
      var i :| 0 <= i < |possibleAnswers| && Stringify(possibleAnswers)[i] == answer;
      assert IsDigits(answer);
      assert !IsDigit('l') && !IsDigit('b') && !IsDigit('t');
      assert answer[0] != 'l' && answer[0] != 'b' && answer[0] != 't';
      assert answer !in SPECIAL_ANSWERS;
    }
  }

  /** An offered answer reads back, with `int`, as the number it was made from. */
  lemma OfferedAnswerValue(possibleAnswers: seq<nat>, answer: string)
    requires answer in Stringify(possibleAnswers)
    ensures IsDigits(answer)
    ensures ParseNat(answer) in possibleAnswers
    ensures NatToString(ParseNat(answer)) == answer
  {
    var i :| 0 <= i < |possibleAnswers| && Stringify(possibleAnswers)[i] == answer;
    ParseNatToString(possibleAnswers[i]);
  }

  // ---------------------------------------------------------------------------
  // prompting
  // ---------------------------------------------------------------------------

  /** The position of the first answer in the feed the validator accepts, or |feed| if none is. */
  function FirstAccepted(validator: string -> bool, feed: seq<string>): (k: nat)
    ensures k <= |feed|
    ensures k < |feed| ==> validator(feed[k])
    decreases |feed|
  {
    if |feed| == 0 then 0
    else if validator(feed[0]) then 0
    else FirstAccepted(validator, feed[1..]) + 1
  }

  /** The validator refuses every answer before the first accepted one. */
  lemma {:induction false} RefusedBeforeFirstAccepted(validator: string -> bool, feed: seq<string>, j: nat)
    requires j < FirstAccepted(validator, feed)
    ensures !validator(feed[j])
    decreases j
  {
    if j > 0 {
      RefusedBeforeFirstAccepted(validator, feed[1..], j - 1);
    }
  }

  /** Any position that is the first accepted one is the one FirstAccepted gives. */
  lemma {:induction false} FirstAcceptedUnique(validator: string -> bool, feed: seq<string>, k: nat)
    requires k <= |feed|
    requires k < |feed| ==> validator(feed[k])
    requires forall j :: 0 <= j < k ==> !validator(feed[j])
    ensures FirstAccepted(validator, feed) == k
    decreases k
  {
    if k > 0 {
      var tail := feed[1..];
      forall j | 0 <= j < k - 1
        ensures !validator(tail[j])
      {
        assert tail[j] == feed[j + 1];
      }
      FirstAcceptedUnique(validator, tail, k - 1);
    }
  }

  /**
   * The prompt with a validator: answers the validator refuses are asked
   * again, so the result is the first accepted answer of the feed, and the
   * feed goes on after it.
   */
  method Prompt(validator: string -> bool, feed: seq<string>) returns (answer: Option<string>, rest: seq<string>)
    ensures var k := FirstAccepted(validator, feed);
            && (k < |feed| ==> answer == Some(feed[k]) && rest == feed[k + 1..])
            && (k == |feed| ==> answer == None && rest == [])
  {
    var i := 0;
    while i < |feed|
      invariant 0 <= i <= |feed|
      invariant forall j :: 0 <= j < i ==> !validator(feed[j])
    {
      if validator(feed[i]) {
        FirstAcceptedUnique(validator, feed, i);
        return Some(feed[i]), feed[i + 1..];
      }
      i := i + 1;
    }
    FirstAcceptedUnique(validator, feed, |feed|);
    return None, [];
  }

  /** Every answer that ends send_query's loop passes its prompt's validator. */
  lemma EndingAnswersAreAccepted(possibleAnswers: seq<nat>)
    ensures forall answer :: EndsQuery(possibleAnswers)(answer) ==>
                               PartialValidateAnswer(AcceptedAnswers(possibleAnswers))(answer)
  {
  }

  /**
   * One round of send_query's loop, asked at position `pos` of the feed,
   * before which no answer ended the query: the prompt returns the first
   * answer its validator accepts, and an answer it refuses cannot end the
   * query, so the query ends at that answer if that one ends it, and
   * otherwise later in the feed.
   */
  lemma QueryRound(validator: string -> bool, ends: string -> bool, feed: seq<string>, pos: nat)
    requires forall answer :: ends(answer) ==> validator(answer)
    requires pos <= FirstAccepted(ends, feed)
    ensures var p := FirstAccepted(validator, feed[pos..]);
            && pos + p <= FirstAccepted(ends, feed)
            && (pos + p == |feed| || ends(feed[pos + p]) ==> FirstAccepted(ends, feed) == pos + p)
            && (pos + p < |feed| ==> feed[pos..][p] == feed[pos + p] && feed[pos..][p + 1..] == feed[pos + p + 1..])
  {
    var p := FirstAccepted(validator, feed[pos..]);
    forall j | 0 <= j < pos
      ensures !ends(feed[j])
    {
      RefusedBeforeFirstAccepted(ends, feed, j);
    }
    RefusedAnswersDoNotEnd(validator, ends, feed, pos);
    NoEndingBefore(ends, feed, pos + p);
    if pos + p == |feed| || ends(feed[pos + p]) {
      FirstAcceptedUnique(ends, feed, pos + p);
    }
  }

  /** The answers the prompt refuses before the one it returns do not end the query either. */
  lemma RefusedAnswersDoNotEnd(validator: string -> bool, ends: string -> bool, feed: seq<string>, pos: nat)
    requires forall answer :: ends(answer) ==> validator(answer)
    requires pos <= |feed|
    requires forall j :: 0 <= j < pos ==> !ends(feed[j])
    ensures var p := FirstAccepted(validator, feed[pos..]);
            && pos + p <= |feed|
            && (forall j :: 0 <= j < pos + p ==> !ends(feed[j]))
            && (pos + p < |feed| ==> feed[pos..][p] == feed[pos + p] && feed[pos..][p + 1..] == feed[pos + p + 1..])
  {
    var rest := feed[pos..];
    var p := FirstAccepted(validator, rest);
    forall j | pos <= j < pos + p
      ensures !ends(feed[j])
    {
      assert feed[j] == rest[j - pos];
      RefusedBeforeFirstAccepted(validator, rest, j - pos);
    }
  }

  /** When none of the first m answers is accepted, the first accepted one comes at m or later. */
  lemma NoEndingBefore(validator: string -> bool, feed: seq<string>, m: nat)
    requires m <= |feed|
    requires forall j :: 0 <= j < m ==> !validator(feed[j])
    ensures m <= FirstAccepted(validator, feed)
  {
  }

  /**
   * send_query: asks until the answer is an offered one (the special answers
   * only print something and ask again), records that answer alone in the
   * script, and returns it.
   */
  method SendQuery(possibleAnswers: seq<nat>, script: Script, feed: seq<string>)
    returns (answer: Option<string>, rest: seq<string>)
    modifies script
    ensures var k := FirstAccepted(EndsQuery(possibleAnswers), feed);
            && (k < |feed| ==>
                  && answer == Some(feed[k])
                  && rest == feed[k + 1..]
                  && script.entries == old(script.entries) + [feed[k]])
            && (k == |feed| ==>
                  && answer == None
                  && rest == []
                  && script.entries == old(script.entries))
  {
    var possibleAnswerString := AcceptedAnswers(possibleAnswers);
    var validator := PartialValidateAnswer(possibleAnswerString);
    ghost var ends := EndsQuery(possibleAnswers);
    EndingAnswersAreAccepted(possibleAnswers);
    ghost var pos := 0;
    rest := feed;
    while true
      invariant pos <= |feed| && rest == feed[pos..]
      invariant pos <= FirstAccepted(ends, feed)
      invariant script.entries == old(script.entries)
      decreases |feed| - pos
    {
      var a, r := Prompt(validator, rest);
      QueryRound(validator, ends, feed, pos);
      ghost var p := FirstAccepted(validator, feed[pos..]);
      if a.None? {
        return None, [];
      }
      if IsFinalAnswer(possibleAnswerString, a.value) {
        answer, rest := a, r;
        break;
      }
      // 'll' lists the labels again, 'banana?' and 'turtle' print a joke
      pos, rest := pos + p + 1, r;
    }
    AddToScript(script, [answer.value]);
  }

  /**
   * The answer send_query returns, when it returns one, is one of the offered
   * answers as a string, never a special one, and reads back with `int` as an
   * offered number.
   */
  lemma QueryAnswerIsOffered(possibleAnswers: seq<nat>, feed: seq<string>)
    requires FirstAccepted(EndsQuery(possibleAnswers), feed) < |feed|
    ensures var answer := feed[FirstAccepted(EndsQuery(possibleAnswers), feed)];
            && answer in Stringify(possibleAnswers)
            && answer !in SPECIAL_ANSWERS
            && ParseNat(answer) in possibleAnswers
  {
    var answer := feed[FirstAccepted(EndsQuery(possibleAnswers), feed)];
    EndsQueryOnOfferedAnswer(possibleAnswers, answer);
    OfferedAnswerValue(possibleAnswers, answer);
  }

  /**
   * send_query_script_file: takes an offered answer, but always records "0"
   * in the script, whatever the answer was.
   */
  method SendQueryScriptFile(possibleAnswers: seq<nat>, script: Script, feed: seq<string>)
    returns (answer: Option<string>, rest: seq<string>)
    modifies script
    ensures var k := FirstAccepted(PartialValidateAnswerScriptFile(Stringify(possibleAnswers)), feed);
            && (k < |feed| ==>
                  && answer == Some(feed[k])
                  && rest == feed[k + 1..]
                  && script.entries == old(script.entries) + ["0"])
            && (k == |feed| ==>
                  && answer == None
                  && rest == []
                  && script.entries == old(script.entries))
  {
    var possibleAnswerString := Stringify(possibleAnswers);
    answer, rest := Prompt(PartialValidateAnswerScriptFile(possibleAnswerString), feed);
    if answer.Some? {
      assert NatToString(0) == "0";
      AddToScript(script, [NatToString(0)]);
    }
  }

  /** send_query_path: takes the next answer as it is, and records it in the script. */
  method SendQueryPath(script: Script, feed: seq<string>) returns (answer: Option<string>, rest: seq<string>)
    modifies script
    ensures |feed| > 0 ==> answer == Some(feed[0]) && rest == feed[1..] && script.entries == old(script.entries) + [feed[0]]
    ensures |feed| == 0 ==> answer == None && rest == [] && script.entries == old(script.entries)
  {
    answer, rest := Prompt(AcceptAnything(), feed);
    if answer.Some? {
      AddToScript(script, [answer.value]);
    }
  }

  /** send_query_path_new_script: takes the next answer as it is, and records nothing. */
  method SendQueryPathNewScript(feed: seq<string>) returns (answer: Option<string>, rest: seq<string>)
    ensures |feed| > 0 ==> answer == Some(feed[0]) && rest == feed[1..]
    ensures |feed| == 0 ==> answer == None && rest == []
  {
    answer, rest := Prompt(AcceptAnything(), feed);
  }

  // ---------------------------------------------------------------------------
  // filling the commands list
  // ---------------------------------------------------------------------------

  /** The answers get_if_script_file offers: (0) NO, (1) YES. */
  const NO_YES: seq<nat> := [0, 1]

  /**
   * get_if_script_file: records "0" in the script whatever the answer, sets
   * make_script_file to whether the answer was "1", and then, only for "1",
   * takes the next answer as the script's address.
   */
  method GetIfScriptFile(script: Script, commandsList: CommandsList, feed: seq<string>)
    returns (ok: bool, rest: seq<string>)
    modifies script, commandsList`makeScriptFile, commandsList`scriptFilePrintAddress
    ensures var k := FirstAccepted(PartialValidateAnswerScriptFile(Stringify(NO_YES)), feed);
            && (k == |feed| ==>
                  && !ok && rest == []
                  && script.entries == old(script.entries)
                  && commandsList.makeScriptFile == old(commandsList.makeScriptFile)
                  && commandsList.scriptFilePrintAddress == old(commandsList.scriptFilePrintAddress))
            && (k < |feed| ==>
                  && (feed[k] == "0" || feed[k] == "1")
                  && script.entries == old(script.entries) + ["0"]
                  && commandsList.makeScriptFile == Some(feed[k] == "1"))
            && (k < |feed| && feed[k] == "0" ==>
                  && ok && rest == feed[k + 1..]
                  && commandsList.scriptFilePrintAddress == old(commandsList.scriptFilePrintAddress))
            && (k + 1 < |feed| && feed[k] == "1" ==>
                  && ok && rest == feed[k + 2..]
                  && commandsList.scriptFilePrintAddress == Some(feed[k + 1]))
            && (k + 1 == |feed| && feed[k] == "1" ==>
                  && !ok && rest == []
                  && commandsList.scriptFilePrintAddress == old(commandsList.scriptFilePrintAddress))
  {
    assert Stringify(NO_YES) == ["0", "1"];
    var makeScriptFile, r := SendQueryScriptFile(NO_YES, script, feed);
    if makeScriptFile.None? {
      return false, r;
    }
    commandsList.makeScriptFile := Some(makeScriptFile.value == NatToString(1));
    rest := r;
    if commandsList.makeScriptFile == Some(true) {
      var address, r' := SendQueryPathNewScript(rest);
      if address.None? {
        return false, r';
      }
      commandsList.scriptFilePrintAddress := address;
      rest := r';
    }
    ok := true;
  }

  /**
   * get_time: asks for a position in the time vector only when it has more
   * than one value; the position chosen is one of range(size). Otherwise
   * current_time_value keeps its value (0 as initialised).
   */
  method GetTime(timeVectorSize: nat, script: Script, commandsList: MapCommandsList, feed: seq<string>)
    returns (ok: bool, rest: seq<string>)
    modifies script, commandsList`currentTimeValue
    ensures timeVectorSize <= 1 ==>
              && ok && rest == feed
              && script.entries == old(script.entries)
              && commandsList.currentTimeValue == old(commandsList.currentTimeValue)
    ensures timeVectorSize > 1 ==>
              var k := FirstAccepted(EndsQuery(Range(timeVectorSize)), feed);
              && (ok <==> k < |feed|)
              && (ok ==>
                    && commandsList.currentTimeValue < timeVectorSize
                    && NatToString(commandsList.currentTimeValue) == feed[k]
                    && rest == feed[k + 1..]
                    && script.entries == old(script.entries) + [feed[k]])
              && (!ok ==>
                    && rest == []
                    && commandsList.currentTimeValue == old(commandsList.currentTimeValue)
                    && script.entries == old(script.entries))
  {
    if timeVectorSize > 1 {
      var currentTimeValue, r := SendQuery(Range(timeVectorSize), script, feed);
      if currentTimeValue.None? {
        return false, r;
      }
      EndsQueryOnOfferedAnswer(Range(timeVectorSize), currentTimeValue.value);
      OfferedAnswerValue(Range(timeVectorSize), currentTimeValue.value);
      commandsList.currentTimeValue := ParseNat(currentTimeValue.value);
      return true, r;
    }
    return true, feed;
  }

  /**
   * get_depth: asks for a position in the depth vector only when it has more
   * than one value; the position chosen is one of range(size). Otherwise
   * current_depth_value keeps its value (0 as initialised).
   */
  method GetDepth(depthVectorSize: nat, script: Script, commandsList: MapCommandsList, feed: seq<string>)
    returns (ok: bool, rest: seq<string>)
    modifies script, commandsList`currentDepthValue
    ensures depthVectorSize <= 1 ==>
              && ok && rest == feed
              && script.entries == old(script.entries)
              && commandsList.currentDepthValue == old(commandsList.currentDepthValue)
    ensures depthVectorSize > 1 ==>
              var k := FirstAccepted(EndsQuery(Range(depthVectorSize)), feed);
              && (ok <==> k < |feed|)
              && (ok ==>
                    && commandsList.currentDepthValue < depthVectorSize
                    && NatToString(commandsList.currentDepthValue) == feed[k]
                    && rest == feed[k + 1..]
                    && script.entries == old(script.entries) + [feed[k]])
              && (!ok ==>
                    && rest == []
                    && commandsList.currentDepthValue == old(commandsList.currentDepthValue)
                    && script.entries == old(script.entries))
  {
    if depthVectorSize > 1 {
      var currentDepthValue, r := SendQuery(Range(depthVectorSize), script, feed);
      if currentDepthValue.None? {
        return false, r;
      }
      EndsQueryOnOfferedAnswer(Range(depthVectorSize), currentDepthValue.value);
      OfferedAnswerValue(Range(depthVectorSize), currentDepthValue.value);
      commandsList.currentDepthValue := ParseNat(currentDepthValue.value);
      return true, r;
    }
    return true, feed;
  }

  /** update_info_list_in_command_list: info_list becomes every variable name of the file. */
  method UpdateInfoListInCommandList(variableNames: seq<string>, dimensionNames: seq<string>, commandsList: CommandsList)
    modifies commandsList`infoList
    ensures commandsList.infoList == Some(variableNames)
  {
    var names := VariableNameList(variableNames, dimensionNames, LABELS);
    commandsList.infoList := Some(names);
  }
}
