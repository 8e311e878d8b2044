/** The browser's ledger over local storage: the `pollify_polls` entry as a
    map from poll id to record, and the `pollify_voted` entry as the list of
    poll ids this browser has voted on. Unlike the server, it keeps no voter
    ids, never consults the voted list before counting, and counts a repeated
    index once per occurrence. */
module BrowserLedger {
  import opened Common
  import opened Tally
  import opened Sequences

  /** A stored record. `votes` is `None` when the record has no `votes` field
      (only records written by something other than `savePoll` lack one). */
  datatype Record = Record(
    question: string,
    options: seq<string>,
    multipleChoice: bool,
    votes: Option<map<int, nat>>,
    createdAt: int)

  /** The second argument of `submitVote`: one index or an array of them. */
  datatype Choice = One(index: int) | Many(indices: seq<int>)

  /** `Array.isArray(x) ? x : [x]`. */
  function Indices(choice: Choice): (indices: seq<int>)
    ensures choice.One? ==> indices == [choice.index]
    ensures choice.Many? ==> indices == choice.indices
  {
    match choice
    case One(index) => [index]
    case Many(indices) => indices
  }

  /** The record `savePoll` writes: the data with `createdAt` set to the
      current time and `votes` defaulting to `{}`. */
  function Saved(data: Record, now: int): (r: Record)
    ensures r.votes.Some?
    ensures data.votes.Some? ==> r.votes == data.votes
    ensures data.votes.None? ==> r.votes == Some(map[])
    ensures r.createdAt == now
    ensures r.question == data.question && r.options == data.options
    ensures r.multipleChoice == data.multipleChoice
  {
    data.(createdAt := now, votes := Some(if data.votes.Some? then data.votes.value else map[]))
  }

  /** The counts `submitVote` starts from: the stored ones, or one zero per
      option when the record has none. */
  function StartingVotes(r: Record): (votes: map<int, nat>)
    ensures r.votes.Some? ==> votes == r.votes.value
    ensures r.votes.None? ==> votes == ZeroVotes(|r.options|) && Sum(votes) == 0
  {
    if r.votes.Some? then r.votes.value
    else
      SumAllZero(ZeroVotes(|r.options|));
      ZeroVotes(|r.options|)
  }

  /** The voted list after marking `pollId`: appended only when absent. */
  function Marked(voted: seq<string>, pollId: string): (r: seq<string>)
    ensures pollId in r
    ensures forall id :: id in r <==> id in voted || id == pollId
    ensures pollId in voted ==> r == voted
    ensures pollId !in voted ==> r == voted + [pollId]
  {
    if pollId in voted then voted else voted + [pollId]
  }

  /** Marking twice is marking once, and a duplicate-free list stays so. */
  lemma MarkedIdempotent(voted: seq<string>, pollId: string)
    ensures Marked(Marked(voted, pollId), pollId) == Marked(voted, pollId)
    ensures NoDuplicates(voted) ==> NoDuplicates(Marked(voted, pollId))
  {
    var r := Marked(voted, pollId);
    if NoDuplicates(voted) && pollId !in voted {
      forall i, j | 0 <= i < j < |r|
        ensures r[i] != r[j]
      {
        if j == |voted| {
          assert r[i] == voted[i];
        }
      }
    }
  }

  /** The record after one `submitVote`: every occurrence of an index adds 1
      to its count, and the save resets `createdAt`. */
  function Voted(r: Record, choice: Choice, now: int): Record
  {
    Saved(r.(votes := Some(CountEach(StartingVotes(r), Indices(choice)))), now)
  }

  /** A vote's effect on each count and on the total. */
  lemma VotedCounts(r: Record, choice: Choice, now: int, i: int)
    ensures Voted(r, choice, now).votes.Some?
    ensures Get(Voted(r, choice, now).votes.value, i) == Get(StartingVotes(r), i) + multiset(Indices(choice))[i]
    ensures Sum(Voted(r, choice, now).votes.value) == Sum(StartingVotes(r)) + |Indices(choice)|
  {
    CountEachCounts(StartingVotes(r), Indices(choice), i);
    CountEachSum(StartingVotes(r), Indices(choice));
  }

  /** Nothing stops a second vote: it counts every index again. */
  lemma VotedTwice(r: Record, choice: Choice, first: int, second: int, i: int)
    ensures Get(Voted(Voted(r, choice, first), choice, second).votes.value, i)
            == Get(StartingVotes(r), i) + 2 * multiset(Indices(choice))[i]
  {
    VotedCounts(r, choice, first, i);
    VotedCounts(Voted(r, choice, first), choice, second, i);
  }

  /** The browser's poll and vote storage. */
  class BrowserStore {
    var polls: map<string, Record>
    var voted: seq<string>

    /** The store as local storage holds it when the page loads. */
    constructor (storedPolls: map<string, Record>, storedVoted: seq<string>)
      ensures polls == storedPolls && voted == storedVoted
    {
      polls := storedPolls;
      voted := storedVoted;
    }

    /** `savePoll`: overwrites the entry for `pollId` only. */
    method SavePoll(pollId: string, data: Record, now: int) returns (ok: bool)
      modifies this`polls
      ensures ok
      ensures polls == old(polls)[pollId := Saved(data, now)]
      ensures forall id :: id != pollId ==> (id in polls <==> id in old(polls))
      ensures forall id :: id != pollId && id in polls ==> polls[id] == old(polls)[id]
    {
      polls := polls[pollId := Saved(data, now)];
      ok := true;
    }

    /** `getPoll`: the stored record, or `None` (`null`) for an unknown id. */
    function GetPoll(pollId: string): (r: Option<Record>)
      reads this
      ensures r.None? <==> pollId !in polls
      ensures r.Some? ==> r.value == polls[pollId]
    {
      if pollId in polls then Some(polls[pollId]) else None
    }

    /** `hasVoted`: whether this browser has marked the poll. */
    function HasVoted(pollId: string): (b: bool)
      reads this
      ensures b <==> exists k :: 0 <= k < |voted| && voted[k] == pollId
    {
      pollId in voted
    }

    /** `markAsVoted`: appends `pollId` unless it is already listed. */
    method MarkAsVoted(pollId: string)
      modifies this`voted
      ensures voted == Marked(old(voted), pollId)
      ensures HasVoted(pollId)
      ensures NoDuplicates(old(voted)) ==> NoDuplicates(voted)
    {
      MarkedIdempotent(voted, pollId);
      if pollId !in voted {
        voted := voted + [pollId];
      }
    }

    /** `submitVote`: `false` and no change for an unknown poll; otherwise the
        counts go up once per occurrence of each index, the record is saved
        and the poll is marked as voted. The voted list is not consulted. */
    method SubmitVote(pollId: string, choice: Choice, now: int) returns (ok: bool)
      modifies this
      ensures ok <==> pollId in old(polls)
      ensures pollId in old(polls) ==> pollId in polls
      ensures !ok ==> polls == old(polls) && voted == old(voted)
      ensures ok ==> polls == old(polls)[pollId := Voted(old(polls)[pollId], choice, now)]
      ensures ok ==> voted == Marked(old(voted), pollId) && HasVoted(pollId)
    {
      var found := GetPoll(pollId);
      if found.None? {
        return false;
      }
      var poll := found.value;
      var votes: map<int, nat>;
      if poll.votes.None? {
        votes := InitVotes(poll.options);
      } else {
        votes := poll.votes.value;
      }
      var indices := Indices(choice);
      var k := 0;
      while k < |indices|
        invariant 0 <= k <= |indices|
        invariant CountEach(votes, indices[k..]) == CountEach(StartingVotes(poll), indices)
        invariant polls == old(polls) && voted == old(voted)
      {
        votes := votes[indices[k] := Get(votes, indices[k]) + 1];
        k := k + 1;
      }
      var saved := SavePoll(pollId, poll.(votes := Some(votes)), now);
      MarkAsVoted(pollId);
      ok := true;
    }

    /** `getResults`: `None` for an unknown poll; otherwise the counts (`{}`
        when the record has none) with `totalVotes` their sum. */
    method GetResults(pollId: string) returns (r: Option<Summary>)
      ensures r.None? <==> pollId !in polls
      ensures r.Some? ==>
                var p := polls[pollId];
                var votes := if p.votes.Some? then p.votes.value else map[];
                r.value == Summary(p.question, p.options, votes, Sum(votes), p.multipleChoice, p.createdAt)
    {
      var found := GetPoll(pollId);
      if found.None? {
        return None;
      }
      var p := found.value;
      var votes := if p.votes.Some? then p.votes.value else map[];
      var total := TotalVotes(votes);
      r := Some(Summary(p.question, p.options, votes, total, p.multipleChoice, p.createdAt));
    }
  }
}
