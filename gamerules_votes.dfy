/** The approve-vote map of server/gamerules/votes.go. `approveBy` writes
    into the receiver map in place, creating one when the receiver is nil. */
module Votes {
  import opened Wrappers

  datatype VoteError = PlayerHasAlreadyVoted

  class VoteMap {
    var approvals: map<string, bool>

    constructor ()
      ensures approvals == map[]
    {
      approvals := map[];
    }
  }

  /** `votes.approveBy`. A nil receiver yields a fresh map; otherwise the
      receiver itself is updated and returned. */
  method ApproveBy(v: VoteMap?, name: string) returns (r: VoteMap, err: Option<VoteError>)
    modifies v
    ensures v == null ==> fresh(r) && r.approvals == map[name := true] && err == None
    ensures v != null ==> r == v
    ensures v != null && name in old(v.approvals) && old(v.approvals)[name] ==>
              err == Some(PlayerHasAlreadyVoted) && v.approvals == old(v.approvals)
    ensures v != null && !(name in old(v.approvals) && old(v.approvals)[name]) ==>
              err == None && v.approvals == old(v.approvals)[name := true]
  {
    if v == null {
      r := new VoteMap();
    } else {
      r := v;
    }
    if name in r.approvals && r.approvals[name] {
      return r, Some(PlayerHasAlreadyVoted);
    }
    r.approvals := r.approvals[name := true];
    err := None;
  }

  /** The map update `approveBy` makes, as a value: only `name` changes. */
  function Approved(approvals: map<string, bool>, name: string): (r: map<string, bool>)
    ensures name in r && r[name]
    ensures forall other :: other != name ==> (other in r <==> other in approvals)
    ensures forall other :: other != name && other in approvals ==> r[other] == approvals[other]
  {
    approvals[name := true]
  }

  /** A name recorded as not approving can still approve, and approving
      twice is refused the second time. */
  method ApproveAfterReject(name: string) returns (first: Option<VoteError>, second: Option<VoteError>)
    ensures first == None && second == Some(PlayerHasAlreadyVoted)
  {
    var v := new VoteMap();
    v.approvals := map[name := false];
    var r;
    r, first := ApproveBy(v, name);
    r, second := ApproveBy(r, name);
  }
}
