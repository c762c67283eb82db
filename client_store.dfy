/** The small page store of client/src/store/store.ts: which page to show
    and the code of the party joined. Its mutators update the held values
    in place. */
module ClientStore {

  /** The pages this store knows (no game page in this revision). */
  datatype Page = Loading | Lobby | PartyRoom

  datatype StoreValues = StoreValues(pageToShow: Page, partyCode: string)

  /** The two mutators, as calls. */
  datatype StoreCall = ShowLobby | ShowPartyRoom(code: string)

  /** The values after one call. */
  function Applied(v: StoreValues, call: StoreCall): (r: StoreValues)
    ensures call.ShowLobby? ==> r == v.(pageToShow := Lobby)
    ensures call.ShowPartyRoom? ==> r == StoreValues(PartyRoom, call.code)
  {
    match call
    case ShowLobby => v.(pageToShow := Lobby)
    case ShowPartyRoom(code) => v.(pageToShow := PartyRoom, partyCode := code)
  }

  /** The values after calls in order. */
  function AppliedAll(v: StoreValues, calls: seq<StoreCall>): StoreValues {
    if calls == [] then v
    else Applied(AppliedAll(v, calls[..|calls| - 1]), calls[|calls| - 1])
  }

  /** The page a call shows. */
  function PageShown(call: StoreCall): Page {
    if call.ShowLobby? then Lobby else PartyRoom
  }

  /** `calls[i]` is the last ShowPartyRoom of `calls`. */
  predicate LastPartyRoom(calls: seq<StoreCall>, i: nat)
    requires i < |calls|
  {
    calls[i].ShowPartyRoom? && forall j :: i < j < |calls| ==> calls[j].ShowLobby?
  }

  class Store {
    var pageToShow: Page
    var partyCode: string

    function Values(): StoreValues
      reads this
    {
      StoreValues(pageToShow, partyCode)
    }

    /** A new store shows the loading page and has no party code. */
    constructor()
      ensures Values() == StoreValues(Loading, "")
    {
      pageToShow := Loading;
      partyCode := "";
    }

    /** `showLobby`: the lobby, keeping the party code. */
    method ShowLobby()
      modifies this
      ensures Values() == Applied(old(Values()), StoreCall.ShowLobby)
    {
      pageToShow := Lobby;
    }

    /** `showPartyRoom`: the party room of `code`. */
    method ShowPartyRoom(code: string)
      modifies this
      ensures Values() == Applied(old(Values()), StoreCall.ShowPartyRoom(code))
    {
      pageToShow := PartyRoom;
      partyCode := code;
    }
  }

  /** Each mutator is idempotent. */
  lemma CallsAreIdempotent(v: StoreValues, call: StoreCall)
    ensures Applied(Applied(v, call), call) == Applied(v, call)
  {
  }

  /** After any non-empty sequence of calls the last one decides the page,
      and the party code is the one of the last ShowPartyRoom, or the
      original one when there was none. */
  lemma {:induction false} LastCallDecides(v: StoreValues, calls: seq<StoreCall>)
    requires calls != []
    ensures AppliedAll(v, calls).pageToShow == PageShown(calls[|calls| - 1])
    ensures (forall i :: 0 <= i < |calls| ==> calls[i].ShowLobby?) ==>
      AppliedAll(v, calls).partyCode == v.partyCode
    ensures forall i :: 0 <= i < |calls| && LastPartyRoom(calls, i) ==>
      AppliedAll(v, calls).partyCode == calls[i].code
  {
    var init := calls[..|calls| - 1];
    if init != [] {
      LastCallDecides(v, init);
    }
    forall i | 0 <= i < |calls| && LastPartyRoom(calls, i)
      ensures AppliedAll(v, calls).partyCode == calls[i].code
    {
      if i < |calls| - 1 {
        assert init[i] == calls[i];
        assert forall j :: i < j < |init| ==> init[j] == calls[j];
      }
    }
    if forall i :: 0 <= i < |calls| ==> calls[i].ShowLobby? {
      assert forall i :: 0 <= i < |init| ==> init[i] == calls[i];
    }
  }
}
