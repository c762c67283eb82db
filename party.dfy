/** The party service of server/party/party.go: creating a party is
    delegated; joining one is allowed only when the party exists, and then
    a JoinParty command is dispatched. */
module Party {
  import opened Wrappers
  import BusMessages

  datatype PartyError = PartyDoesntExist

  /** `fmt.Errorf("can't join party {%s}: %w", code, errPartyDoesntExists)`. */
  datatype JoinError = CantJoinParty(code: string, cause: PartyError)

  class PartyService {
    /** The party checker's `DoesPartyExist`. */
    const doesPartyExist: string -> bool
    /** Every message handed to the dispatcher, in order. */
    var dispatched: seq<BusMessages.Message>

    constructor (doesPartyExist: string -> bool)
      ensures this.doesPartyExist == doesPartyExist && dispatched == []
    {
      this.doesPartyExist := doesPartyExist;
      dispatched := [];
    }

    /** `CreateParty`: the creator's code, unchanged. */
    method CreateParty(created: string) returns (code: string)
      ensures code == created
    {
      code := created;
    }

    /** `JoinParty`: the existence check comes before any dispatch. */
    method JoinParty(code: string, name: string) returns (err: Option<JoinError>)
      modifies this`dispatched
      ensures doesPartyExist(code) ==>
                err == None && dispatched == old(dispatched) + [BusMessages.JoinParty(code, name)]
      ensures !doesPartyExist(code) ==>
                err == Some(CantJoinParty(code, PartyDoesntExist)) && dispatched == old(dispatched)
    {
      var partyExists := doesPartyExist(code);
      if partyExists {
        dispatched := dispatched + [BusMessages.JoinParty(code, name)];
        return None;
      }
      return Some(CantJoinParty(code, PartyDoesntExist));
    }
  }
}
