/** The server's vote ledger: the `polls` collection as a map from `pollId`
    to the stored document, and the five route handlers that read and update
    it. Each handler runs as one step; a request body field the client may
    leave out is an `Option`, and a falsy value is `None` or the empty
    string. */
module ServerLedger {
  import opened Common
  import opened Tally
  import PollIds
  import opened Sequences

  /** A stored poll document. */
  datatype Poll = Poll(
    pollId: string,
    question: string,
    options: seq<string>,
    multipleChoice: bool,
    votes: map<int, nat>,
    voterIds: seq<string>,
    createdAt: int)

  /** What `GET /api/polls/:pollId` sends: the document without `voterIds`. */
  datatype PollView = PollView(
    pollId: string,
    question: string,
    options: seq<string>,
    multipleChoice: bool,
    votes: map<int, nat>,
    createdAt: int)

  /** An HTTP answer: a status with a body, or a status with an error text. */
  datatype Reply<T> = Ok(status: nat, body: T) | Err(status: nat, error: string)

  /** The body of `POST /api/polls`. */
  datatype CreateRequest = CreateRequest(
    question: Option<string>,
    options: Option<seq<string>>,
    multipleChoice: Option<bool>)

  /** `optionIndices` in the body of a vote: absent, present but not an array,
      or an array of indices. */
  datatype IndicesField = Missing | NotAnArray | Indices(items: seq<int>)

  /** The body of `POST /api/polls/:pollId/vote`. */
  datatype VoteRequest = VoteRequest(optionIndices: IndicesField, voterId: Option<string>)

  const CreateInvalid := "Question and at least 2 options required"
  const IndicesInvalid := "Valid option indices required"
  const VoterIdRequired := "Voter ID required"
  const PollNotFound := "Poll not found"
  const AlreadyVoted := "You have already voted on this poll"
  const VoteRecorded := "Vote recorded successfully"

  /** JavaScript truthiness of an optional string. */
  predicate Truthy(s: Option<string>)
  {
    s.Some? && s.value != ""
  }

  /** The create handler's guard: a truthy question and at least 2 options. */
  predicate CreateAccepted(req: CreateRequest)
  {
    Truthy(req.question) && req.options.Some? && |req.options.value| >= 2
  }

  /** The document the create handler inserts. */
  function NewPoll(pollId: string, req: CreateRequest, now: int): (p: Poll)
    requires CreateAccepted(req)
    ensures p.votes == ZeroVotes(|req.options.value|)
    ensures p.voterIds == []
    ensures p.multipleChoice == (req.multipleChoice == Some(true))
  {
    Poll(pollId, req.question.value, req.options.value,
         if req.multipleChoice.Some? then req.multipleChoice.value else false,
         ZeroVotes(|req.options.value|), [], now)
  }

  /** The response body of the get handler. */
  function View(p: Poll): PollView
  {
    PollView(p.pollId, p.question, p.options, p.multipleChoice, p.votes, p.createdAt)
  }

  /** The vote handler's checks, in the order it makes them; `None` when the
      vote goes through. Neither the range of an index nor the number of
      indices on a single-choice poll is checked. */
  function VoteRejection(found: Option<Poll>, req: VoteRequest): Option<(nat, string)>
  {
    if !req.optionIndices.Indices? || |req.optionIndices.items| == 0 then Some((400, IndicesInvalid))
    else if !Truthy(req.voterId) then Some((400, VoterIdRequired))
    else if found.None? then Some((404, PollNotFound))
    else if req.voterId.value in found.value.voterIds then Some((400, AlreadyVoted))
    else None
  }

  /** The document after `$set` of the bumped counts and `$push` of the voter. */
  function Ballot(p: Poll, indices: seq<int>, voterId: string): Poll
  {
    p.(votes := p.votes + Bumped(p.votes, indices), voterIds := p.voterIds + [voterId])
  }

  /** What every stored document satisfies. */
  ghost predicate WellFormed(id: string, p: Poll)
  {
    && p.pollId == id
    && p.question != ""
    && |p.options| >= 2
    && (forall i :: 0 <= i < |p.options| ==> i in p.votes)
    && NoDuplicates(p.voterIds)
    && Sum(p.votes) >= |p.voterIds|
  }

  /** Every stored document is well formed under its own id. */
  ghost predicate AllWellFormed(polls: map<string, Poll>)
  {
    forall id :: id in polls ==> WellFormed(id, polls[id])
  }

  /** Storing a well-formed document keeps the collection well formed. */
  lemma StoreWellFormed(polls: map<string, Poll>, id: string, p: Poll)
    requires AllWellFormed(polls) && WellFormed(id, p)
    ensures AllWellFormed(polls[id := p])
  {
  }

  /** A new poll is well formed: zero votes for each option and no voters. */
  lemma NewPollWellFormed(pollId: string, req: CreateRequest, now: int)
    requires CreateAccepted(req)
    ensures WellFormed(pollId, NewPoll(pollId, req, now))
    ensures Sum(NewPoll(pollId, req, now).votes) == 0
  {
    var p := NewPoll(pollId, req, now);
    SumAllZero(p.votes);
  }

  /** An accepted vote keeps a poll well formed. Each accepted vote names at
      least one index, so the total grows at least as fast as the voter list. */
  lemma {:induction false} BallotWellFormed(id: string, p: Poll, indices: seq<int>, voterId: string)
    requires WellFormed(id, p)
    requires |indices| > 0 && voterId !in p.voterIds
    ensures WellFormed(id, Ballot(p, indices, voterId))
    ensures Sum(Ballot(p, indices, voterId).votes) == Sum(p.votes) + |Distinct(indices)|
  {
    BumpedSum(p.votes, indices);
    assert indices[0] in Distinct(indices);
    var q := Ballot(p, indices, voterId);
    forall i, j | 0 <= i < j < |q.voterIds|
      ensures q.voterIds[i] != q.voterIds[j]
    {
      if j == |p.voterIds| {
        assert q.voterIds[i] == p.voterIds[i];
      }
    }
  }

  /** An accepted vote keeps the whole collection well formed. */
  lemma VoteKeepsWellFormed(polls: map<string, Poll>, id: string, indices: seq<int>, voterId: string)
    requires AllWellFormed(polls) && id in polls
    requires |indices| > 0 && voterId !in polls[id].voterIds
    ensures AllWellFormed(polls[id := Ballot(polls[id], indices, voterId)])
  {
    BallotWellFormed(id, polls[id], indices, voterId);
    StoreWellFormed(polls, id, Ballot(polls[id], indices, voterId));
  }

  /** After an accepted vote, every later vote by the same voter is rejected,
      and one with a non-empty index array is rejected as already voted. */
  lemma RevoteRejected(p: Poll, req: VoteRequest, again: VoteRequest)
    requires VoteRejection(Some(p), req) == None
    requires again.voterId == req.voterId
    ensures VoteRejection(Some(Ballot(p, req.optionIndices.items, req.voterId.value)), again).Some?
    ensures again.optionIndices.Indices? && |again.optionIndices.items| > 0 ==>
              VoteRejection(Some(Ballot(p, req.optionIndices.items, req.voterId.value)), again) == Some((400, AlreadyVoted))
  {
  }

  /** The collection of polls and its handlers. */
  class PollCollection {
    var polls: map<string, Poll>

    ghost predicate Valid()
      reads this
    {
      AllWellFormed(polls)
    }

    /** An empty collection, as `connectDB` finds it on a fresh database. */
    constructor ()
      ensures Valid() && polls == map[]
    {
      polls := map[];
    }

    /** `POST /api/polls`. A rejected request inserts nothing and draws no id.
        The collection has no unique index on `pollId` and `findOne` returns
        the first matching document, so an id that is already taken leaves
        the earlier poll as the one every later request reaches. */
    method CreatePoll(req: CreateRequest, draws: seq<nat>, now: int) returns (reply: Reply<string>)
      requires Valid()
      requires |draws| == PollIds.IdLength
      requires forall k :: 0 <= k < |draws| ==> draws[k] < 36
      modifies this
      ensures Valid()
      ensures !CreateAccepted(req) ==> reply == Err(400, CreateInvalid) && polls == old(polls)
      ensures CreateAccepted(req) ==>
                var id := PollIds.Spell(draws);
                && reply == Ok(201, id)
                && polls == if id in old(polls) then old(polls)
                            else old(polls)[id := NewPoll(id, req, now)]
    {
      if !Truthy(req.question) || req.options.None? || |req.options.value| < 2 {
        return Err(400, CreateInvalid);
      }
      var pollId := PollIds.GeneratePollId(draws);
      var votes := InitVotes(req.options.value);
      var multipleChoice := if req.multipleChoice.Some? then req.multipleChoice.value else false;
      var poll := Poll(pollId, req.question.value, req.options.value, multipleChoice, votes, [], now);
      assert poll == NewPoll(pollId, req, now);
      NewPollWellFormed(pollId, req, now);
      if pollId !in polls {
        StoreWellFormed(polls, pollId, poll);
        polls := polls[pollId := poll];
      }
      reply := Ok(201, pollId);
    }

    /** `GET /api/polls/:pollId`: 404 for an unknown id, otherwise the stored
        document without its voter list. */
    function GetPoll(pollId: string): (reply: Reply<PollView>)
      reads this
      ensures reply.Err? <==> pollId !in polls
      ensures reply.Err? ==> reply == Err(404, PollNotFound)
      ensures reply.Ok? ==> reply.status == 200 && reply.body.pollId == polls[pollId].pollId
                            && reply.body.question == polls[pollId].question
                            && reply.body.options == polls[pollId].options
                            && reply.body.votes == polls[pollId].votes
                            && reply.body.multipleChoice == polls[pollId].multipleChoice
                            && reply.body.createdAt == polls[pollId].createdAt
    {
      if pollId !in polls then Err(404, PollNotFound) else Ok(200, View(polls[pollId]))
    }

    /** `POST /api/polls/:pollId/vote`. */
    method Vote(pollId: string, req: VoteRequest) returns (reply: Reply<string>)
      requires Valid()
      modifies this
      ensures Valid()
      ensures var found := if pollId in old(polls) then Some(old(polls)[pollId]) else None;
              match VoteRejection(found, req)
              case Some(rejection) =>
                reply == Err(rejection.0, rejection.1) && polls == old(polls)
              case None =>
                && reply == Ok(200, VoteRecorded)
                && polls == old(polls)[pollId := Ballot(old(polls)[pollId], req.optionIndices.items, req.voterId.value)]
      ensures reply.Ok? ==> CheckVote(pollId, req.voterId) == Ok(200, true)
    {
      if !req.optionIndices.Indices? || |req.optionIndices.items| == 0 {
        return Err(400, IndicesInvalid);
      }
      if !Truthy(req.voterId) {
        return Err(400, VoterIdRequired);
      }
      if pollId !in polls {
        return Err(404, PollNotFound);
      }
      var poll := polls[pollId];
      var voterId := req.voterId.value;
      if voterId in poll.voterIds {
        return Err(400, AlreadyVoted);
      }
      var indices := req.optionIndices.items;
      var updates: map<int, nat> := map[];
      var k := 0;
      while k < |indices|
        invariant 0 <= k <= |indices|
        invariant updates == Bumped(poll.votes, indices[..k])
        invariant polls == old(polls)
      {
        BumpedSnoc(poll.votes, indices[..k], indices[k]);
        assert indices[..k + 1] == indices[..k] + [indices[k]];
        updates := updates[indices[k] := Get(poll.votes, indices[k]) + 1];
        k := k + 1;
      }
      assert indices[..k] == indices;
      VoteKeepsWellFormed(polls, pollId, indices, voterId);
      polls := polls[pollId := poll.(votes := poll.votes + updates, voterIds := poll.voterIds + [voterId])];
      reply := Ok(200, VoteRecorded);
    }

    /** `GET /api/polls/:pollId/results`: 404 for an unknown id; otherwise the
        counts with `totalVotes` their sum, and no voter list. */
    method Results(pollId: string) returns (reply: Reply<Summary>)
      ensures pollId !in polls ==> reply == Err(404, PollNotFound)
      ensures pollId in polls ==>
                var p := polls[pollId];
                reply == Ok(200, Summary(p.question, p.options, p.votes, Sum(p.votes), p.multipleChoice, p.createdAt))
    {
      if pollId !in polls {
        return Err(404, PollNotFound);
      }
      var p := polls[pollId];
      var total := TotalVotes(p.votes);
      reply := Ok(200, Summary(p.question, p.options, p.votes, total, p.multipleChoice, p.createdAt));
    }

    /** `POST /api/polls/:pollId/check-vote`: the voter id is checked before
        the poll is looked up. */
    function CheckVote(pollId: string, voterId: Option<string>): (reply: Reply<bool>)
      reads this
      ensures !Truthy(voterId) ==> reply == Err(400, VoterIdRequired)
      ensures Truthy(voterId) && pollId !in polls ==> reply == Err(404, PollNotFound)
      ensures Truthy(voterId) && pollId in polls ==>
                reply.Ok? && reply.status == 200 && (reply.body <==> voterId.value in polls[pollId].voterIds)
    {
      if !Truthy(voterId) then Err(400, VoterIdRequired)
      else if pollId !in polls then Err(404, PollNotFound)
      else Ok(200, voterId.value in polls[pollId].voterIds)
    }
  }
}
