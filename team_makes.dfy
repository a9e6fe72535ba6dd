/** The team-makes hook: the list of makes, the add-make modal and the
    key derivation and duplicate check performed before a make is created. */
module TeamMakes {
  import opened Wrappers
  import opened BreadTypes
  import opened JsString

  /** The key the duplicate check compares: lower-cased, untrimmed, each run
      of whitespace turned into '_'. */
  function CheckKey(name: string): (k: string)
    ensures |k| <= |name|
  {
    ReplaceSpaceRuns(Lower(name), '_')
  }

  /** The checked key has no whitespace left in it. */
  lemma CheckKeySpec(name: string)
    ensures NoSpace(CheckKey(name))
  {
    ReplaceSpaceRunsSpec(Lower(name), '_');
  }

  /** The key sent to the API: trimmed, lower-cased, each run of whitespace
      turned into '-', then every character outside [a-z0-9-] removed. */
  function SubmitKey(name: string): (k: string)
    ensures |k| <= |name|
  {
    KeepKeyChars(ReplaceSpaceRuns(Lower(Trim(name)), '-'))
  }

  /** The submitted key is made of [a-z0-9-] only. */
  lemma SubmitKeySpec(name: string)
    ensures forall i :: 0 <= i < |SubmitKey(name)| ==> IsKeyChar(SubmitKey(name)[i])
  {
    KeepKeyCharsSpec(ReplaceSpaceRuns(Lower(Trim(name)), '-'));
  }

  /** A name already made of [a-z0-9-] is its own key under both derivations. */
  lemma KeysAgreeOnPlainNames(name: string)
    requires forall i :: 0 <= i < |name| ==> IsKeyChar(name[i])
    ensures CheckKey(name) == name && SubmitKey(name) == name
  {
    assert NoSpace(name);
    assert Lower(name) == name;
    assert CheckKey(name) == name by {
      ReplaceSpaceRunsNoSpace(name, '_');
    }
    assert SubmitKey(name) == name by {
      TrimNoSpace(name);
      ReplaceSpaceRunsNoSpace(name, '-');
      KeepKeyCharsSpec(name);
    }
  }

  /** An ASCII letter or digit. */
  predicate IsAlnum(c: char) {
    ('a' <= c <= 'z') || ('A' <= c <= 'Z') || ('0' <= c <= '9')
  }

  /** A non-empty run of ASCII letters and digits. */
  predicate IsWord(w: string) {
    |w| > 0 && forall i :: 0 <= i < |w| ==> IsAlnum(w[i])
  }

  lemma LowerConcat(x: string, y: string)
    ensures Lower(x + y) == Lower(x) + Lower(y)
  {
    assert forall i :: 0 <= i < |x + y| ==> Lower(x + y)[i] == (Lower(x) + Lower(y))[i] by {
      forall i | 0 <= i < |x + y| ensures Lower(x + y)[i] == (Lower(x) + Lower(y))[i] {
        if i < |x| { assert (x + y)[i] == x[i]; } else { assert (x + y)[i] == y[i - |x|]; }
      }
    }
  }

  /** A word lowers to key characters and holds no space. */
  lemma LowerWord(w: string)
    requires IsWord(w)
    ensures NoSpace(w) && NoSpace(Lower(w)) && |Lower(w)| == |w|
    ensures forall i :: 0 <= i < |Lower(w)| ==> IsKeyChar(Lower(w)[i])
  {
    LowerSpec(w);
  }

  /** The checked key of two words separated by one space joins their lower
      cases with '_', the submitted key with '-'. */
  lemma TwoWordKeys(a: string, b: string)
    requires IsWord(a) && IsWord(b)
    ensures CheckKey(a + " " + b) == Lower(a) + "_" + Lower(b)
    ensures SubmitKey(a + " " + b) == Lower(a) + "-" + Lower(b)
  {
    var name := a + " " + b;
    LowerWord(a);
    LowerWord(b);
    assert Lower(name) == Lower(a) + " " + Lower(b) by {
      LowerConcat(a + " ", b);
      LowerConcat(a, " ");
    }
    assert CheckKey(name) == Lower(a) + "_" + Lower(b) by {
      ReplaceSpaceRunsBetween(Lower(a), " ", Lower(b), '_');
    }
    assert Trim(name) == name by {
      assert name[0] == a[0] && name[|name| - 1] == b[|b| - 1];
    }
    var key := Lower(a) + "-" + Lower(b);
    assert ReplaceSpaceRuns(Lower(name), '-') == key by {
      ReplaceSpaceRunsBetween(Lower(a), " ", Lower(b), '-');
    }
    assert forall i :: 0 <= i < |key| ==> IsKeyChar(key[i]) by {
      forall i | 0 <= i < |key| ensures IsKeyChar(key[i]) {
        if i < |a| { assert key[i] == Lower(a)[i]; }
        else if i > |a| { assert key[i] == Lower(b)[i - |a| - 1]; }
      }
    }
    KeepKeyCharsSpec(key);
  }

  /** So the two derivations disagree on every such name, and the local
      duplicate check lets it through even when a make already carries the
      key it would be submitted with. */
  lemma DuplicateCheckMissesSubmittedKey(a: string, b: string, displayName: string)
    requires IsWord(a) && IsWord(b)
    ensures CheckKey(a + " " + b) != SubmitKey(a + " " + b)
    ensures var makes := [TeamMake(displayName, SubmitKey(a + " " + b))];
      !HasKey(makes, CheckKey(a + " " + b)) && HasKey(makes, SubmitKey(a + " " + b))
  {
    TwoWordKeys(a, b);
    LowerWord(a);
    var name := a + " " + b;
    assert CheckKey(name)[|a|] == '_' && SubmitKey(name)[|a|] == '-';
    var makes := [TeamMake(displayName, SubmitKey(name))];
    assert makes[0].key == SubmitKey(name);
  }

  /** For instance "Team Make" is checked as "team_make" but submitted as
      "team-make". */
  lemma CheckedAndSubmittedKeysDiffer()
    ensures CheckKey("Team Make") == "team_make"
    ensures SubmitKey("Team Make") == "team-make"
  {
    var a, b := "Team", "Make";
    assert IsWord(a) && IsWord(b);
    TwoWordKeys(a, b);
    assert Lower(a) == "team" && Lower(b) == "make";
    var check, submit := Lower(a) + "_" + Lower(b), Lower(a) + "-" + Lower(b);
    assert check == "team_make" && submit == "team-make";
    assert a + " " + b == "Team Make";
  }

  /** `fetchTeamMakes`'s list: the API's makes when it returned some, the
      defaults when it returned none or failed (none here). */
  function FetchedMakes(result: Option<seq<TeamMake>>): (r: seq<TeamMake>)
    ensures result.Some? && |result.value| > 0 ==> r == result.value
    ensures !(result.Some? && |result.value| > 0) ==> r == DefaultTeamMakes
    ensures |r| > 0
  {
    if result.Some? && |result.value| > 0 then result.value else DefaultTeamMakes
  }

  const NameRequired := "Make name is required"
  const SimilarNameExists := "A make with a similar name already exists"
  const AddMakeFailed := "Failed to add make"

  /** The body of a create-make request. */
  datatype CreateMakeRequest = CreateMakeRequest(displayName: string, key: string)

  /** The outcome of the create call: the make the server returned, or a
      rejection (with the message when it was an `Error`). */
  datatype CreateOutcome = Created(make: TeamMake) | Rejected(message: Option<string>)

  /** What `handleAddMake` decides before calling the API. */
  datatype AddMakeCheck = BlankName | SimilarKey | Send(request: CreateMakeRequest)

  /** `handleAddMake`'s checks, in order: a blank name stops it, then a make
      whose key equals the checked key; otherwise it sends the trimmed name
      with the submitted key. */
  function CheckNewMake(name: string, makes: seq<TeamMake>): (c: AddMakeCheck)
    ensures c == BlankName <==> AllSpace(name)
    ensures c == SimilarKey <==> !AllSpace(name) && HasKey(makes, CheckKey(name))
    ensures c.Send? ==> c.request == CreateMakeRequest(Trim(name), SubmitKey(name))
    ensures c.Send? ==> |c.request.displayName| > 0 && !IsSpace(c.request.displayName[0])
  {
    TrimSpec(name);
    var displayName := Trim(name);
    if displayName == "" then BlankName
    else if HasKey(makes, CheckKey(name)) then SimilarKey
    else Send(CreateMakeRequest(displayName, KeepKeyChars(ReplaceSpaceRuns(Lower(displayName), '-'))))
  }

  /** The hook's state cells. */
  datatype MakesState = MakesState(
    teamMakes: seq<TeamMake>,
    isLoading: bool,
    isAddMakeModalOpen: bool,
    newMakeName: string,
    isAddingMake: bool,
    addMakeError: Option<string>)

  function ErrorText(message: Option<string>): string {
    if message.Some? then message.value else AddMakeFailed
  }

  /** The state `handleAddMake` leaves and the request it sends. */
  function AddMake(st: MakesState, outcome: CreateOutcome): (r: (MakesState, Option<CreateMakeRequest>))
    ensures r.1.Some? <==> CheckNewMake(st.newMakeName, st.teamMakes).Send?
    ensures r.0.teamMakes == (if r.1.Some? && outcome.Created? then st.teamMakes + [outcome.make] else st.teamMakes)
    ensures r.0.addMakeError.None? <==> r.1.Some? && outcome.Created?
    ensures !r.0.isAddMakeModalOpen <==> (r.1.Some? && outcome.Created?) || !st.isAddMakeModalOpen
  {
    match CheckNewMake(st.newMakeName, st.teamMakes)
    case BlankName => (st.(addMakeError := Some(NameRequired)), None)
    case SimilarKey => (st.(addMakeError := Some(SimilarNameExists)), None)
    case Send(r) =>
      match outcome
      case Created(make) =>
        (st.(teamMakes := st.teamMakes + [make], isAddMakeModalOpen := false, newMakeName := "",
             addMakeError := None, isAddingMake := false), Some(r))
      case Rejected(message) =>
        (st.(addMakeError := Some(ErrorText(message)), isAddingMake := false), Some(r))
  }

  /** A blank or whitespace-only name only sets the error: no request, the
      list and the name as they were. */
  lemma BlankNameRejected(st: MakesState, outcome: CreateOutcome)
    requires AllSpace(st.newMakeName)
    ensures AddMake(st, outcome) == (st.(addMakeError := Some(NameRequired)), None)
  {
  }

  /** A name whose checked key some make already has only sets the error. */
  lemma SimilarNameRejected(st: MakesState, outcome: CreateOutcome)
    requires !AllSpace(st.newMakeName) && HasKey(st.teamMakes, CheckKey(st.newMakeName))
    ensures AddMake(st, outcome) == (st.(addMakeError := Some(SimilarNameExists)), None)
  {
  }

  /** Otherwise the trimmed name is sent with the submitted key; the make the
      server returns is appended after the existing ones and the modal closes
      with its name and error cleared, while a rejection keeps the list and
      shows the error. */
  lemma NewNameSent(st: MakesState, outcome: CreateOutcome)
    requires !AllSpace(st.newMakeName) && !HasKey(st.teamMakes, CheckKey(st.newMakeName))
    ensures var (st', request) := AddMake(st, outcome);
      request == Some(CreateMakeRequest(Trim(st.newMakeName), SubmitKey(st.newMakeName)))
      && !st'.isAddingMake && st'.isLoading == st.isLoading
      && (outcome.Created? ==>
            st'.teamMakes == st.teamMakes + [outcome.make] && st'.teamMakes[..|st.teamMakes|] == st.teamMakes
            && !st'.isAddMakeModalOpen && st'.newMakeName == "" && st'.addMakeError.None?)
      && (outcome.Rejected? ==>
            st'.teamMakes == st.teamMakes && st'.newMakeName == st.newMakeName
            && st'.isAddMakeModalOpen == st.isAddMakeModalOpen
            && st'.addMakeError == Some(ErrorText(outcome.message)))
  {
  }

  class TeamMakesHook {
    var teamMakes: seq<TeamMake>
    var isLoading: bool
    var isAddMakeModalOpen: bool
    var newMakeName: string
    var isAddingMake: bool
    var addMakeError: Option<string>

    constructor()
      ensures teamMakes == [] && !isLoading && !isAddMakeModalOpen && newMakeName == ""
      ensures !isAddingMake && addMakeError.None?
    {
      teamMakes := [];
      isLoading := false;
      isAddMakeModalOpen := false;
      newMakeName := "";
      isAddingMake := false;
      addMakeError := None;
    }

    /** The mount effect, given what `getAll` returned (none when it threw).
        The cached list it may show first is always replaced. */
    method FetchTeamMakes(result: Option<seq<TeamMake>>)
      modifies this
      ensures teamMakes == FetchedMakes(result) && !isLoading
      ensures isAddMakeModalOpen == old(isAddMakeModalOpen) && newMakeName == old(newMakeName)
      ensures isAddingMake == old(isAddingMake) && addMakeError == old(addMakeError)
    {
      isLoading := true;
      if result.Some? && |result.value| > 0 {
        teamMakes := result.value;
      } else {
        teamMakes := DefaultTeamMakes;
      }
      isLoading := false;
    }

    /** `setNewMakeName` */
    method SetNewMakeName(name: string)
      modifies this
      ensures newMakeName == name
      ensures teamMakes == old(teamMakes) && isLoading == old(isLoading)
      ensures isAddMakeModalOpen == old(isAddMakeModalOpen)
      ensures isAddingMake == old(isAddingMake) && addMakeError == old(addMakeError)
    {
      newMakeName := name;
    }

    method OpenAddMakeModal()
      modifies this
      ensures isAddMakeModalOpen && newMakeName == "" && addMakeError.None?
      ensures teamMakes == old(teamMakes) && isLoading == old(isLoading) && isAddingMake == old(isAddingMake)
    {
      isAddMakeModalOpen := true;
      newMakeName := "";
      addMakeError := None;
    }

    method CloseAddMakeModal()
      modifies this
      ensures !isAddMakeModalOpen && newMakeName == "" && addMakeError.None?
      ensures teamMakes == old(teamMakes) && isLoading == old(isLoading) && isAddingMake == old(isAddingMake)
    {
      isAddMakeModalOpen := false;
      newMakeName := "";
      addMakeError := None;
    }

    /** The hook's state cells, read together. */
    function State(): MakesState
      reads this
    {
      MakesState(teamMakes, isLoading, isAddMakeModalOpen, newMakeName, isAddingMake, addMakeError)
    }

    /** `handleAddMake`, given the create call's outcome.  It returns the
        request it sends, none when it stops before calling the API. */
    method HandleAddMake(outcome: CreateOutcome) returns (request: Option<CreateMakeRequest>)
      modifies this
      ensures (State(), request) == AddMake(old(State()), outcome)
    {
      var c := CheckNewMake(newMakeName, teamMakes);
      match c {
        case BlankName =>
          addMakeError := Some(NameRequired);
          return None;
        case SimilarKey =>
          addMakeError := Some(SimilarNameExists);
          return None;
        case Send(r) =>
          isAddingMake := true;
          addMakeError := None;
          request := Some(r);
      }
      match outcome {
        case Created(make) =>
          teamMakes := teamMakes + [make];
          CloseAddMakeModal();
        case Rejected(message) =>
          addMakeError := Some(ErrorText(message));
      }
      isAddingMake := false;
    }
  }
}
