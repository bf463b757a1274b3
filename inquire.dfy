/**
 * The menu logic of the first-generation tool (src/inquire.rs): the option
 * lists the prompts show and how an answer maps back to a choice, and the
 * validation and parsing of the invite `uses` answer. The prompts themselves
 * are not modelled: a prompt is a function `select` from the options shown to
 * the answer given, none when the prompt was skipped.
 */
module Menus {
  import opened Wrappers
  import opened Text
  import opened Legacy

  // ---------------------------------------------------------------------------
  // Server actions
  // ---------------------------------------------------------------------------

  /** The statuses of a container that is not running but can be started. */
  predicate IsStartable(status: string)
  {
    status == "exited" || status == "created" || status == "dead" || status == "paused"
  }

  /** No option is listed twice. */
  predicate Distinct(options: seq<string>)
  {
    forall i, j :: 0 <= i < j < |options| ==> options[i] != options[j]
  }

  /**
   * `get_server_container_actions`: "Update" and "View logs" first and
   * "Delete" last; between them, for a running container "Manage invites",
   * "Restart" and "Stop", for a startable one "Start", and nothing otherwise.
   */
  method GetServerContainerActions(status: string) returns (options: seq<string>)
    ensures |options| >= 3 && options[0] == "Update" && options[1] == "View logs" && options[|options| - 1] == "Delete"
    ensures status == "running" ==> options[2..|options| - 1] == ["Manage invites", "Restart", "Stop"]
    ensures IsStartable(status) ==> options[2..|options| - 1] == ["Start"]
    ensures status != "running" && !IsStartable(status) ==> |options| == 3
    ensures "Manage invites" in options <==> status == "running"
    ensures "Stop" in options <==> status == "running"
    ensures "Start" in options <==> IsStartable(status)
    ensures Distinct(options)
  {
    options := [];
    options := options + ["Update"];
    options := options + ["View logs"];
    if status == "running" {
      options := options + ["Manage invites"];
      options := options + ["Restart"];
      options := options + ["Stop"];
    } else if IsStartable(status) {
      options := options + ["Start"];
    }
    options := options + ["Delete"];
  }

  /**
   * `select_server_container_action`: the actions for the status, which are
   * never empty, then "Go back"; the answer is what the prompt returns.
   */
  method SelectServerContainerAction(status: string, select: seq<string> -> Option<string>)
    returns (r: Option<string>, options: seq<string>)
    ensures |options| >= 4 && options[|options| - 1] == "Go back"
    ensures options[0] == "Update" && options[1] == "View logs" && options[|options| - 2] == "Delete"
    ensures "Go back" !in options[..|options| - 1]
    ensures r == select(options)
  {
    options := GetServerContainerActions(status);
    if |options| == 0 {
      r := None;
      return;
    }
    options := options + ["Go back"];
    r := select(options);
  }

  // ---------------------------------------------------------------------------
  // Server selection
  // ---------------------------------------------------------------------------

  const CREATE_NEW_SERVER := "Create a new server"
  const EXIT := "Exit"

  datatype ServerContainerChoice = Selected(container: ServerContainer) | CreateNewServer | Exit

  /** The first container with the name, if any. */
  function FindByName(containers: seq<ServerContainer>, name: string): (r: Option<ServerContainer>)
    ensures r.None? <==> forall i :: 0 <= i < |containers| ==> containers[i].name != name
    ensures r.Some? ==> exists i :: (0 <= i < |containers| && containers[i] == r.value && r.value.name == name
                                     && forall j :: 0 <= j < i ==> containers[j].name != name)
  {
    if containers == [] then None
    else if containers[0].name == name then Some(containers[0])
    else
      var r := FindByName(containers[1..], name);
      assert forall j :: 0 <= j < |containers| - 1 ==> containers[1..][j] == containers[j + 1];
      r
  }

  /** The choice an answer stands for: the two fixed answers first, then the first container so named. */
  function ChoiceOf(containers: seq<ServerContainer>, selection: string): Option<ServerContainerChoice>
  {
    if selection == CREATE_NEW_SERVER then Some(CreateNewServer)
    else if selection == EXIT then Some(Exit)
    else match FindByName(containers, selection)
      case Some(c) => Some(Selected(c))
      case None => None
  }

  /**
   * Answering with a listed name selects the first container of that name,
   * unless the name is one of the two fixed answers, which always win; so a
   * container named like one of them cannot be selected.
   */
  lemma ChoiceOfName(containers: seq<ServerContainer>, i: nat)
    requires i < |containers| && forall j :: 0 <= j < i ==> containers[j].name != containers[i].name
    ensures containers[i].name == CREATE_NEW_SERVER ==> ChoiceOf(containers, containers[i].name) == Some(CreateNewServer)
    ensures containers[i].name == EXIT ==> ChoiceOf(containers, containers[i].name) == Some(Exit)
    ensures containers[i].name != CREATE_NEW_SERVER && containers[i].name != EXIT ==>
      ChoiceOf(containers, containers[i].name) == Some(Selected(containers[i]))
  {
    var found := FindByName(containers, containers[i].name);
    if found.Some? {
      var k :| 0 <= k < |containers| && containers[k] == found.value && found.value.name == containers[i].name
               && forall j :: 0 <= j < k ==> containers[j].name != containers[i].name;
    }
  }

  /** A selected container is one of the containers, and never one named like a fixed answer. */
  lemma SelectedIsListed(containers: seq<ServerContainer>, selection: string)
    requires ChoiceOf(containers, selection).Some? && ChoiceOf(containers, selection).value.Selected?
    ensures ChoiceOf(containers, selection).value.container in containers
    ensures ChoiceOf(containers, selection).value.container.name == selection
    ensures selection != CREATE_NEW_SERVER && selection != EXIT
  {
  }

  /**
   * `select_server_container`: the container names in order, then
   * "Create a new server", then "Exit"; the answer maps to its choice, and a
   * skipped prompt to none.
   */
  method SelectServerContainer(containers: seq<ServerContainer>, select: seq<string> -> Option<string>)
    returns (r: Option<ServerContainerChoice>, options: seq<string>)
    ensures |options| == |containers| + 2
    ensures forall i :: 0 <= i < |containers| ==> options[i] == containers[i].name
    ensures options[|containers|] == CREATE_NEW_SERVER && options[|containers| + 1] == EXIT
    ensures select(options).None? ==> r.None?
    ensures select(options).Some? ==> r == ChoiceOf(containers, select(options).value)
  {
    options := [];
    for i := 0 to |containers|
      invariant |options| == i
      invariant forall j :: 0 <= j < i ==> options[j] == containers[j].name
    {
      options := options + [containers[i].name];
    }
    options := options + [CREATE_NEW_SERVER];
    options := options + [EXIT];
    var selection := select(options);
    if selection.None? {
      r := None;
      return;
    }
    if selection.value == CREATE_NEW_SERVER {
      r := Some(CreateNewServer);
    } else if selection.value == EXIT {
      r := Some(Exit);
    } else {
      var container := FindByName(containers, selection.value);
      r := if container.Some? then Some(Selected(container.value)) else None;
    }
  }

  // ---------------------------------------------------------------------------
  // Invites
  // ---------------------------------------------------------------------------

  /** The invite ids, in order. */
  function InviteIds(invites: seq<Invite>): (ids: seq<string>)
    ensures |ids| == |invites| && forall i :: 0 <= i < |invites| ==> ids[i] == invites[i].id
  {
    if invites == [] then [] else [invites[0].id] + InviteIds(invites[1..])
  }

  /**
   * `select_invite_to_delete`: with no invites there is nothing to choose
   * and no prompt is shown (`shown` is none); otherwise the prompt lists the
   * invite ids and its answer is returned.
   */
  method SelectInviteToDelete(invites: seq<Invite>, select: seq<string> -> Option<string>)
    returns (r: Option<string>, shown: Option<seq<string>>)
    ensures invites == [] ==> r.None? && shown.None?
    ensures invites != [] ==> shown == Some(InviteIds(invites)) && r == select(InviteIds(invites))
  {
    var options := InviteIds(invites);
    if |options| == 0 {
      r, shown := None, None;
      return;
    }
    shown := Some(options);
    r := select(options);
  }

  /** A validator's verdict on an answer. */
  datatype Validation = Valid | Invalid(message: string)

  const CANNOT_BE_ZERO := "Cannot be zero"
  const NOT_A_NUMBER := "Please enter a valid number or leave blank"

  /**
   * The validator of the `uses` answer (`invite_parameters`): a blank answer
   * means unlimited; otherwise the trimmed answer must be a 32-bit unsigned
   * number other than zero.
   */
  function UsesValidator(input: string): (v: Validation)
    ensures v == Valid <==> Trim(input) == [] || (ParseU32(Trim(input)).Some? && ParseU32(Trim(input)).value != 0)
    ensures v == Invalid(CANNOT_BE_ZERO) <==> Trim(input) != [] && ParseU32(Trim(input)) == Some(0)
    ensures v == Invalid(NOT_A_NUMBER) <==> Trim(input) != [] && ParseU32(Trim(input)).None?
  {
    var t := Trim(input);
    if t == [] then Valid
    else match ParseU32(t)
      case Some(0) => Invalid(CANNOT_BE_ZERO)
      case Some(_) => Valid
      case None => Invalid(NOT_A_NUMBER)
  }

  /**
   * The `uses` of a validated answer: none (unlimited) for a blank answer,
   * otherwise the number it holds, which is never zero.
   */
  function ParseUses(input: string): (uses: Option<u32>)
    requires UsesValidator(input) == Valid
    ensures uses.None? <==> Trim(input) == []
    ensures uses.Some? ==> uses.value != 0 && ParseU32(Trim(input)) == Some(uses.value as nat)
  {
    var t := Trim(input);
    if t == [] then None else Some(ParseU32(t).value)
  }

  /**
   * The answers that name a number of uses: the decimal rendering of any
   * positive 32-bit number is accepted and parsed back to that number, and
   * the blank answer to unlimited.
   */
  lemma UsesAnswerRoundTrip(n: u32)
    requires n != 0
    ensures UsesValidator(NatToDecimal(n)) == Valid
    ensures ParseUses(NatToDecimal(n)) == Some(n)
    ensures UsesValidator("") == Valid && ParseUses("") == None
  {
    NatToDecimalTrimmed(n);
    ParseUnsignedOfDecimal(n, U32_LIMIT);
    TrimEmptyIffBlank("");
  }
}
