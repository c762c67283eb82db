/** Player sessions of server/sessions/sessions.go: a session id, produced
    by the uuid creator, names a player of a party. The uuid creator is
    represented by the id it returned; the lock is not modelled. */
module Sessions {

  datatype PlayerSession = PlayerSession(partyCode: string, name: string)

  class SessionStore {
    var sessionById: map<string, PlayerSession>

    constructor ()
      ensures sessionById == map[]
    {
      sessionById := map[];
    }

    /** `Create`: records the session under the new id, overwriting any
        session that already had it, and returns the id. */
    method Create(code: string, name: string, uuid: string) returns (id: string)
      modifies this
      ensures id == uuid
      ensures sessionById == old(sessionById)[uuid := PlayerSession(code, name)]
      ensures forall other :: other != id && other in old(sessionById) ==>
                other in sessionById && sessionById[other] == old(sessionById)[other]
    {
      sessionById := sessionById[uuid := PlayerSession(code, name)];
      id := uuid;
    }
  }
}
