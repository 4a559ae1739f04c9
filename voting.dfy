/**
 * The group-voting panel of a trip: a dictionary from proposal id to the
 * current user's vote, updated by clicking the thumbs-up or thumbs-down
 * button of a proposal, and a constant list of proposals whose tallies are
 * shown next to those buttons.
 */
module Voting {
  import opened Wrappers

  datatype VoteType = Up | Down

  /**
   * The component's `votes` state. A key that was never voted on is absent;
   * a vote that was clicked away is stored as `None` (the source's `null`).
   * The value type admits exactly `Up`, `Down` and no vote.
   */
  type Votes = map<string, Option<VoteType>>

  datatype Proposal = Proposal(
    id: string,
    title: string,
    proposer: string,
    description: string,
    upvotes: nat,
    downvotes: nat,
    comments: nat,
    status: string)

  /** The proposals the panel shows; they are literals, never recomputed. */
  const Proposals: seq<Proposal> := [
    Proposal("1", "Visit Tokyo Skytree on Day 2", "Sarah Smith",
             "Best views of the city, especially at sunset", 3, 1, 2, "active"),
    Proposal("2", "Extend stay by 2 days", "Mike Johnson",
             "More time to explore and relax", 2, 2, 5, "active"),
    Proposal("3", "Day trip to Mount Fuji", "John Doe",
             "Weather looks perfect next week", 4, 0, 3, "approved")
  ]

  /** The vote recorded for `id`; an absent key reads as no vote (`undefined`). */
  function CurrentVote(votes: Votes, id: string): Option<VoteType> {
    if id in votes then votes[id] else None
  }

  /**
   * The updater passed to `setVotes` by `handleVote`: every entry is copied
   * and the entry of `id` is overwritten, with no vote when the clicked
   * choice is the current one and with the clicked choice otherwise.
   */
  function HandleVote(votes: Votes, id: string, t: VoteType): (r: Votes)
    ensures r.Keys == votes.Keys + {id}
    ensures forall k :: k in votes && k != id ==> k in r && r[k] == votes[k]
    ensures forall k :: k != id ==> CurrentVote(r, k) == CurrentVote(votes, k)
    ensures CurrentVote(r, id) != CurrentVote(votes, id)
  {
    votes[id := if CurrentVote(votes, id) == Some(t) then None else Some(t)]
  }

  /** Clicking the current choice clears the vote. */
  lemma VoteSameClears(votes: Votes, id: string, t: VoteType)
    requires CurrentVote(votes, id) == Some(t)
    ensures CurrentVote(HandleVote(votes, id, t), id) == None
  {
  }

  /** Clicking a choice when there is no vote, or the other vote, records exactly that choice. */
  lemma VoteOtherRecords(votes: Votes, id: string, t: VoteType)
    requires CurrentVote(votes, id) != Some(t)
    ensures CurrentVote(HandleVote(votes, id, t), id) == Some(t)
  {
  }

  /**
   * Clicking the same button twice on a proposal without a vote leaves every
   * proposal's vote as it was before the first click.
   */
  lemma VoteTwiceRestores(votes: Votes, id: string, t: VoteType)
    requires CurrentVote(votes, id) == None
    ensures forall k :: CurrentVote(HandleVote(HandleVote(votes, id, t), id, t), k) == CurrentVote(votes, k)
  {
    var once := HandleVote(votes, id, t);
    assert CurrentVote(once, id) == Some(t);
  }

  /** Two clicks on the same button keep the vote only when it was that choice to begin with. */
  lemma VoteTwice(votes: Votes, id: string, t: VoteType)
    ensures CurrentVote(HandleVote(HandleVote(votes, id, t), id, t), id)
         == (if CurrentVote(votes, id) == Some(t) then Some(t) else None)
  {
    var once := HandleVote(votes, id, t);
    if CurrentVote(votes, id) == Some(t) {
      assert CurrentVote(once, id) == None;
    } else {
      assert CurrentVote(once, id) == Some(t);
    }
  }

  const GreenStatus := "bg-green-100 text-green-800"
  const RedStatus := "bg-red-100 text-red-800"
  const YellowStatus := "bg-yellow-100 text-yellow-800"

  /** The badge class of a proposal status: `approved` is green, `rejected` red, anything else yellow. */
  function StatusColor(status: string): (c: string)
    ensures c == GreenStatus <==> status == "approved"
    ensures c == RedStatus <==> status == "rejected"
    ensures c == YellowStatus <==> status != "approved" && status != "rejected"
  {
    if status == "approved" then GreenStatus
    else if status == "rejected" then RedStatus
    else YellowStatus
  }

  /** The two active built-in proposals show yellow badges and the approved one green. */
  lemma BuiltInStatusColors()
    ensures |Proposals| == 3
    ensures StatusColor(Proposals[0].status) == YellowStatus
    ensures StatusColor(Proposals[1].status) == YellowStatus
    ensures StatusColor(Proposals[2].status) == GreenStatus
  {
  }

  /** The initial `votes` state: an empty dictionary. */
  const NoVotes: Votes := map[]

  /** Before any click every proposal shows its tallies with neither button lit. */
  lemma NoVotesNothingLit(p: Proposal)
    ensures !Controls(p, NoVotes).upActive && !Controls(p, NoVotes).downActive
    ensures Controls(p, NoVotes).upCount == p.upvotes && Controls(p, NoVotes).downCount == p.downvotes
  {
  }

  /** What the two vote buttons of one proposal display. */
  datatype VoteControls = VoteControls(upCount: nat, downCount: nat, upActive: bool, downActive: bool)

  /**
   * The rendered vote buttons: the counts are the proposal's own tallies and
   * a button is highlighted exactly when the stored vote is that choice.
   */
  function Controls(p: Proposal, votes: Votes): (c: VoteControls)
    ensures c.upCount == p.upvotes && c.downCount == p.downvotes
    ensures c.upActive <==> CurrentVote(votes, p.id) == Some(Up)
    ensures c.downActive <==> CurrentVote(votes, p.id) == Some(Down)
    ensures !(c.upActive && c.downActive)
  {
    var v := CurrentVote(votes, p.id);
    VoteControls(p.upvotes, p.downvotes, v == Some(Up), v == Some(Down))
  }

  /**
   * A vote never changes any displayed tally; it changes nothing at all on
   * the other proposals, and on the voted one it highlights only the clicked
   * button, and that one exactly when the click did not clear the vote.
   */
  lemma VoteKeepsTallies(p: Proposal, votes: Votes, id: string, t: VoteType)
    ensures Controls(p, HandleVote(votes, id, t)).upCount == Controls(p, votes).upCount
    ensures Controls(p, HandleVote(votes, id, t)).downCount == Controls(p, votes).downCount
    ensures p.id != id ==> Controls(p, HandleVote(votes, id, t)) == Controls(p, votes)
    ensures p.id == id ==>
      (Controls(p, HandleVote(votes, id, t)).upActive <==> t == Up && CurrentVote(votes, id) != Some(Up))
    ensures p.id == id ==>
      (Controls(p, HandleVote(votes, id, t)).downActive <==> t == Down && CurrentVote(votes, id) != Some(Down))
  {
  }
}
