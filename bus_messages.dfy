/** The server message bus's messages (server/messagebus/commands.go and
    events.go). Every message carries its party's code; commands and events
    report their kind through `Type()`. */
module BusMessages {

  datatype Allegiance = Spy | Resistance

  /** The string value of an allegiance. */
  function AllegianceName(a: Allegiance): (s: string)
    ensures s == "spy" <==> a == Spy
  {
    match a
    case Spy => "spy"
    case Resistance => "resistance"
  }

  datatype Message =
      // commands
    | JoinParty(code: string, player: string)
    | StartGame(code: string)
    | LeaderSelectsMember(code: string, leader: string, memberToSelect: string)
    | LeaderDeselectsMember(code: string, leader: string, memberToDeselect: string)
    | LeaderConfirmsTeamSelection(code: string, leader: string)
    | ApproveTeam(code: string, player: string)
    | RejectTeam(code: string, player: string)
    | SucceedMission(code: string, player: string)
    | FailMission(code: string, player: string)
      // events
    | PartyCreated(code: string)
    | PlayerConnected(code: string, player: string)
    | PlayerDisconnected(code: string, player: string)
    | PlayerJoined(code: string, player: string)
      /** The allegiance map, listed in the order Go happens to iterate it. */
    | AllegianceRevealed(code: string, allegianceByPlayer: seq<(string, Allegiance)>)
    | LeaderStartedToSelectMembers(code: string, leader: string)
    | LeaderSelectedMember(code: string, selectedMember: string)
    | LeaderDeselectedMember(code: string, deselectedMember: string)
    | LeaderConfirmedSelection(code: string)
    | PlayerVotedOnTeam(code: string, player: string, approved: bool)
    | AllPlayerVotedOnTeam(code: string, approved: bool, voteFailures: int, playerVotes: map<string, bool>)
    | MissionStarted(code: string)
    | PlayerWorkedOnMission(code: string, player: string, success: bool)
    | MissionCompleted(code: string, success: bool, outcomes: map<bool, int>)
    | GameEnded(code: string, winner: Allegiance)
      /** A message of some other package whose `Type()` is neither kind. */
    | Foreign(code: string)

  datatype MessageType = CommandMessage | EventMessage | OtherMessage

  predicate IsCommand(m: Message) {
    m.JoinParty? || m.StartGame? || m.LeaderSelectsMember? || m.LeaderDeselectsMember?
    || m.LeaderConfirmsTeamSelection? || m.ApproveTeam? || m.RejectTeam?
    || m.SucceedMission? || m.FailMission?
  }

  /** `Type()`: commands embed `Command`, events embed `Event`. */
  function TypeOf(m: Message): (t: MessageType)
    ensures t == CommandMessage <==> IsCommand(m)
    ensures t == OtherMessage <==> m.Foreign?
  {
    if IsCommand(m) then CommandMessage
    else if m.Foreign? then OtherMessage
    else EventMessage
  }

  /** The names of an allegiance listing, in order. */
  function Names(pairs: seq<(string, Allegiance)>): (r: seq<string>)
    ensures |r| == |pairs| && forall i :: 0 <= i < |pairs| ==> r[i] == pairs[i].0
  {
    if pairs == [] then [] else Names(pairs[..|pairs| - 1]) + [pairs[|pairs| - 1].0]
  }

  /** A listing of a Go map: no name twice. */
  predicate DistinctNames(pairs: seq<(string, Allegiance)>) {
    forall i, j :: 0 <= i < j < |pairs| ==> pairs[i].0 != pairs[j].0
  }
}
