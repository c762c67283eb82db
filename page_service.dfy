/** Which page the application shows (client/src/components/Page-service.ts
    and its older copy client/src/components/page-service.ts, identical in
    behaviour). */
module PageService {
  import opened ClientTypes

  predicate IsPage(pageToShow: Page, page: Page) {
    pageToShow == page
  }

  predicate IsPageLobby(pageToShow: Page) { IsPage(pageToShow, Lobby) }
  predicate IsPagePartyRoom(pageToShow: Page) { IsPage(pageToShow, PartyRoom) }
  predicate IsPageGame(pageToShow: Page) { IsPage(pageToShow, Game) }

  /** At most one page shows, and none while loading. */
  lemma AtMostOnePage(pageToShow: Page)
    ensures !(IsPageLobby(pageToShow) && IsPagePartyRoom(pageToShow))
    ensures !(IsPageLobby(pageToShow) && IsPageGame(pageToShow))
    ensures !(IsPagePartyRoom(pageToShow) && IsPageGame(pageToShow))
    ensures pageToShow == Loading <==> !IsPageLobby(pageToShow) && !IsPagePartyRoom(pageToShow) && !IsPageGame(pageToShow)
  {
  }
}
