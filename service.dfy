/** The earlier party service of server/service/service.go: one game per
    party code; a join adds the player through the game rules and reports
    the join. The code generator is represented by the code it returned,
    the dispatcher by the log of dispatched messages. */
module Service {
  import opened Wrappers
  import opened GameRulesInterface

  /** The `joinParty` message, and any other message. */
  datatype Message = JoinPartyMessage(partyCode: string, user: string) | OtherMessage

  /** The `playerJoined` event. */
  datatype Event = PlayerJoined(partyCode: string, user: string)

  /** `fmt.Errorf("can't join party: %w", err)`; the rules' own error is not
      modelled. */
  datatype ServiceError = CantJoinParty

  class PartyGames<G> {
    const rules: Rules<G>
    var games: map<string, G>
    var dispatched: seq<Event>

    /** `newService`. */
    constructor (rules: Rules<G>)
      ensures this.rules == rules && games == map[] && dispatched == []
    {
      this.rules := rules;
      games := map[];
      dispatched := [];
    }

    /** `getGameForPartyCode`: what is stored, or the zero game. */
    function GameFor(code: string): (g: G)
      reads this
      ensures code in games ==> g == games[code]
      ensures code !in games ==> g == rules.zero
    {
      if code in games then games[code] else rules.zero
    }

    /** `createParty`, given the generated code. */
    method CreateParty(generated: string) returns (code: string)
      modifies this`games
      ensures code == generated && games == old(games)[code := rules.newGame]
    {
      code := generated;
      games := games[code := rules.newGame];
    }

    /** `handleMessage`: a join the rules accept stores the new game and
        dispatches one `playerJoined`; a refused join changes nothing and
        returns the wrapped error; other messages are ignored. */
    method HandleMessage(m: Message) returns (err: Option<ServiceError>)
      modifies this`games, this`dispatched
      ensures m.OtherMessage? ==> err == None && games == old(games) && dispatched == old(dispatched)
      ensures m.JoinPartyMessage? && !rules.addPlayer(old(GameFor(m.partyCode)), m.user).ok ==>
                err == Some(CantJoinParty) && games == old(games) && dispatched == old(dispatched)
      ensures m.JoinPartyMessage? && rules.addPlayer(old(GameFor(m.partyCode)), m.user).ok ==>
                && err == None
                && games == old(games)[m.partyCode := rules.addPlayer(old(GameFor(m.partyCode)), m.user).game]
                && dispatched == old(dispatched) + [PlayerJoined(m.partyCode, m.user)]
    {
      match m
      case JoinPartyMessage(code, user) =>
        var step := rules.addPlayer(GameFor(code), user);
        if !step.ok {
          return Some(CantJoinParty);
        }
        games := games[code := step.game];
        dispatched := dispatched + [PlayerJoined(code, user)];
        return None;
      case OtherMessage =>
        return None;
    }
  }
}
