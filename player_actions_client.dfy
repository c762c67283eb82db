/** The client side of player actions
    (client/src/player-actions/player-actions.ts): each of the eight game
    commands becomes one HTTP POST to its own action URL. The HTTP client is
    an interface; the post it would receive is returned. */
module PlayerActionsClient {
  import opened Wrappers
  import CM = ClientMessages

  /** A POST: its path, and the `member` of the body `{member}` if any. */
  datatype Post = Post(url: string, member: Option<string>)

  /** The eight commands posted to the server. */
  predicate IsAction(m: CM.Message) {
    m.StartGame? || m.LeaderSelectsMember? || m.LeaderDeselectsMember?
    || m.LeaderConfirmsTeam? || m.ApproveTeam? || m.RejectTeam?
    || m.SucceedMission? || m.FailMission?
  }

  /** `PlayerActions.consume`. Exactly the eight commands post, once each;
      only selecting and deselecting a member send a body, and it names that
      member. */
  function Consume(m: CM.Message): (post: Option<Post>)
    ensures post.Some? <==> IsAction(m)
    ensures post.Some? ==> (post.value.member.Some? <==> m.LeaderSelectsMember? || m.LeaderDeselectsMember?)
    ensures post.Some? && post.value.member.Some? ==> post.value.member.value == m.member
  {
    match m
    case StartGame => Some(Post("/actions/start-game", None))
    case LeaderSelectsMember(member) => Some(Post("/actions/leader-selects-member", Some(member)))
    case LeaderDeselectsMember(member) => Some(Post("/actions/leader-deselects-member", Some(member)))
    case LeaderConfirmsTeam => Some(Post("/actions/leader-confirms-team", None))
    case ApproveTeam => Some(Post("/actions/approve-team", None))
    case RejectTeam => Some(Post("/actions/reject-team", None))
    case SucceedMission => Some(Post("/actions/succeed-mission", None))
    case FailMission => Some(Post("/actions/fail-mission", None))
    case _ => None
  }

  /** The command a post stands for. */
  function Action(post: Post): Option<CM.Message> {
    match post.url
    case "/actions/start-game" => Some(CM.StartGame)
    case "/actions/leader-selects-member" =>
      if post.member.Some? then Some(CM.LeaderSelectsMember(post.member.value)) else None
    case "/actions/leader-deselects-member" =>
      if post.member.Some? then Some(CM.LeaderDeselectsMember(post.member.value)) else None
    case "/actions/leader-confirms-team" => Some(CM.LeaderConfirmsTeam)
    case "/actions/approve-team" => Some(CM.ApproveTeam)
    case "/actions/reject-team" => Some(CM.RejectTeam)
    case "/actions/succeed-mission" => Some(CM.SucceedMission)
    case "/actions/fail-mission" => Some(CM.FailMission)
    case _ => None
  }

  /** The server can tell every command from its post: reading the post back
      gives the command, so distinct commands post to distinct URLs or with
      distinct members. */
  lemma PostIdentifiesCommand(m: CM.Message)
    requires IsAction(m)
    ensures Action(Consume(m).value) == Some(m)
  {
  }

  /** Commands of different kinds never share a URL. */
  lemma UrlsAreDistinct(m1: CM.Message, m2: CM.Message)
    requires IsAction(m1) && IsAction(m2)
    requires Consume(m1).value.url == Consume(m2).value.url
    ensures m1.LeaderSelectsMember? ==> m2.LeaderSelectsMember?
    ensures m1.LeaderDeselectsMember? ==> m2.LeaderDeselectsMember?
    ensures !m1.LeaderSelectsMember? && !m1.LeaderDeselectsMember? ==> m1 == m2
  {
    PostIdentifiesCommand(m1);
    PostIdentifiesCommand(m2);
    if !m1.LeaderSelectsMember? && !m1.LeaderDeselectsMember? {
      assert Consume(m1).value.member.None?;
    }
  }
}
