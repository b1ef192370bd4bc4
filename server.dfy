/**
 * The three mutation handlers, the leaderboard cache and its read route of
 * the market server (index.js:62-151), run as one sequential state machine.
 * The store is an in-memory table; whether each store call fails is a
 * parameter of the handler, and so are the caption generator and the
 * store-assigned creation time.
 */
module Server {

  import opened Wrappers
  import Users
  import Caption
  import opened Records
  import opened Leaderboard

  /** An HTTP reply: the JSON body on success, a status code and text otherwise. */
  datatype Response<T> = Ok(body: T) | Fail(status: int, message: string)

  /** The events broadcast to every connected client. */
  datatype Event =
    | NewMeme(meme: Meme)
    | NewBid(memeId: int, credits: int, user: string)
    | VoteUpdate(memeId: int, upvotes: int)
    | LeaderboardUpdate(board: seq<Entry>)
  {
    /** The channel name the event is emitted under. */
    function Name(): (channel: string)
    {
      match this
      case NewMeme(_) => "new_meme"
      case NewBid(_, _, _) => "new_bid"
      case VoteUpdate(_, _) => "vote_update"
      case LeaderboardUpdate(_) => "leaderboard_update"
    }
  }

  const DefaultImage := "https://picsum.photos/200"

  /** `image_url || 'https://picsum.photos/200'`: an absent or empty URL is replaced. */
  function ResolveImage(imageUrl: Option<string>): (url: string)
    ensures url != ""
    ensures imageUrl.Some? && imageUrl.value != "" ==> url == imageUrl.value
    ensures imageUrl.None? || imageUrl.value == "" ==> url == DefaultImage
  {
    match imageUrl
    case Some(u) => if u != "" then u else DefaultImage
    case None => DefaultImage
  }

  /**
   * The bid guard `!credits || credits < 0` rejects; this is its negation.
   * Absent credits and 0 are both falsy, so only a positive amount passes.
   */
  function CreditsAccepted(credits: Option<int>): (ok: bool)
    ensures ok <==> credits.Some? && credits.value > 0
  {
    !(credits.None? || credits.value == 0 || credits.value < 0)
  }

  /** `['up', 'down'].includes(type)` and then `type === 'up' ? 1 : -1`. */
  function VoteIncrement(voteType: string): (inc: Option<int>)
    ensures inc.Some? <==> voteType == "up" || voteType == "down"
    ensures voteType == "up" ==> inc == Some(1)
    ensures voteType == "down" ==> inc == Some(-1)
  {
    if voteType in ["up", "down"] then Some(if voteType == "up" then 1 else -1) else None
  }

  /** The payload of the latest leaderboard_update in the log, or [] when there is none. */
  function LastBoard(events: seq<Event>): (board: seq<Entry>)
  {
    if events == [] then []
    else if events[|events| - 1].LeaderboardUpdate? then events[|events| - 1].board
    else LastBoard(events[..|events| - 1])
  }

  /** How many new_meme events the log holds. */
  function CountNewMemes(events: seq<Event>): (n: nat)
  {
    if events == [] then 0
    else CountNewMemes(events[..|events| - 1]) + (if events[|events| - 1].NewMeme? then 1 else 0)
  }

  /** How many new_bid events the log holds. */
  function CountNewBids(events: seq<Event>): (n: nat)
  {
    if events == [] then 0
    else CountNewBids(events[..|events| - 1]) + (if events[|events| - 1].NewBid? then 1 else 0)
  }

  lemma LogAppend(events: seq<Event>, e: Event)
    ensures LastBoard(events + [e]) == if e.LeaderboardUpdate? then e.board else LastBoard(events)
    ensures CountNewMemes(events + [e]) == CountNewMemes(events) + (if e.NewMeme? then 1 else 0)
    ensures CountNewBids(events + [e]) == CountNewBids(events) + (if e.NewBid? then 1 else 0)
  {
    assert (events + [e])[..|events|] == events;
  }

  /**
   * What the store guarantees of its tables: memes are keyed by id in
   * [1, nextMemeId) and bid ids lie in [1, nextBidId), the ranges the two
   * serial sequences have handed out.
   */
  ghost predicate StoreInv(memes: map<int, Meme>, bids: seq<Bid>, nextMemeId: int, nextBidId: int)
  {
    && 1 <= nextMemeId && 1 <= nextBidId
    && KeyedBelow(memes, nextMemeId)
    && (forall k :: k in memes ==> 1 <= k)
    && (forall i :: 0 <= i < |bids| ==> 1 <= bids[i].id < nextBidId)
  }

  /**
   * The server's invariant, on the values of its fields. The store keeps
   * StoreInv; the cache holds at most ten rows, by upvotes largest first,
   * and is what the last leaderboard_update broadcast; the tables hold the
   * rows found when the process started plus one row per new_meme or
   * new_bid emitted since.
   */
  ghost predicate Inv(memes: map<int, Meme>, bids: seq<Bid>, cache: seq<Entry>, events: seq<Event>,
                      nextMemeId: int, nextBidId: int, memesAtStart: nat, bidsAtStart: nat)
  {
    && StoreInv(memes, bids, nextMemeId, nextBidId)
    && |cache| <= Limit && SortedDesc(cache)
    && cache == LastBoard(events)
    && |memes| == memesAtStart + CountNewMemes(events)
    && |bids| == bidsAtStart + CountNewBids(events)
  }

  /** Storing a meme under the next id and emitting new_meme keeps the invariant. */
  lemma InsertMemeKeepsInv(memes: map<int, Meme>, bids: seq<Bid>, cache: seq<Entry>, events: seq<Event>,
                           nextMemeId: int, nextBidId: int, memesAtStart: nat, bidsAtStart: nat, m: Meme)
    requires Inv(memes, bids, cache, events, nextMemeId, nextBidId, memesAtStart, bidsAtStart) && m.id == nextMemeId
    ensures nextMemeId !in memes
    ensures Inv(memes[m.id := m], bids, cache, events + [NewMeme(m)], nextMemeId + 1, nextBidId,
                memesAtStart, bidsAtStart)
  {
    LogAppend(events, NewMeme(m));
  }

  /** Appending a bid under the next id and emitting new_bid keeps the invariant. */
  lemma AppendBidKeepsInv(memes: map<int, Meme>, bids: seq<Bid>, cache: seq<Entry>, events: seq<Event>,
                          nextMemeId: int, nextBidId: int, memesAtStart: nat, bidsAtStart: nat, b: Bid, user: string)
    requires Inv(memes, bids, cache, events, nextMemeId, nextBidId, memesAtStart, bidsAtStart) && b.id == nextBidId
    ensures Inv(memes, bids + [b], cache, events + [NewBid(b.memeId, b.credits, user)], nextMemeId, nextBidId + 1,
                memesAtStart, bidsAtStart)
  {
    LogAppend(events, NewBid(b.memeId, b.credits, user));
  }

  /**
   * Rewriting the upvotes of a stored meme, emitting vote_update, replacing
   * the cache by a fresh leaderboard query and emitting that keeps the
   * invariant.
   */
  lemma VoteKeepsInv(memes: map<int, Meme>, bids: seq<Bid>, cache: seq<Entry>, events: seq<Event>,
                     nextMemeId: int, nextBidId: int, memesAtStart: nat, bidsAtStart: nat,
                     id: int, newUpvotes: int)
    requires Inv(memes, bids, cache, events, nextMemeId, nextBidId, memesAtStart, bidsAtStart) && id in memes
    ensures var after := memes[id := memes[id].(upvotes := newUpvotes)];
            var board := Query(after, nextMemeId);
            Inv(after, bids, board, events + [VoteUpdate(id, newUpvotes), LeaderboardUpdate(board)],
                nextMemeId, nextBidId, memesAtStart, bidsAtStart)
  {
    var after := memes[id := memes[id].(upvotes := newUpvotes)];
    var board := Query(after, nextMemeId);
    assert after.Keys == memes.Keys;
    assert KeyedBelow(after, nextMemeId) by {
      forall k | k in after ensures after[k].id == k && 0 <= k < nextMemeId {
        if k != id { assert after[k] == memes[k]; }
      }
    }
    LogAppend(events, VoteUpdate(id, newUpvotes));
    LogAppend(events + [VoteUpdate(id, newUpvotes)], LeaderboardUpdate(board));
    assert events + [VoteUpdate(id, newUpvotes), LeaderboardUpdate(board)]
        == events + [VoteUpdate(id, newUpvotes)] + [LeaderboardUpdate(board)];
  }

  class MemeServer {
    /** The `memes` table, by id. */
    var memes: map<int, Meme>
    /** The `bids` table, in insertion order. */
    var bids: seq<Bid>
    /** `leaderboardCache` (index.js:30). */
    var leaderboardCache: seq<Entry>
    /** Every `io.emit` so far, oldest first. */
    var events: seq<Event>
    /** The store's id sequences. */
    var nextMemeId: int
    var nextBidId: int
    /** How many rows the two tables held when the process started. */
    ghost const memesAtStart: nat
    ghost const bidsAtStart: nat

    /** The invariant of the server, Inv, on the current field values. */
    ghost predicate Valid()
      reads this
    {
      Inv(memes, bids, leaderboardCache, events, nextMemeId, nextBidId, memesAtStart, bidsAtStart)
    }

    /**
     * A process starting over the store as it finds it: the tables outlive
     * the process, while the cache starts empty (index.js:30) and nothing
     * has been emitted yet.
     */
    constructor (memes: map<int, Meme>, bids: seq<Bid>, nextMemeId: int, nextBidId: int)
      requires StoreInv(memes, bids, nextMemeId, nextBidId)
      ensures Valid()
      ensures this.memes == memes && this.bids == bids
      ensures this.nextMemeId == nextMemeId && this.nextBidId == nextBidId
      ensures leaderboardCache == [] && events == []
    {
      this.memes := memes;
      this.bids := bids;
      leaderboardCache := [];
      events := [];
      this.nextMemeId := nextMemeId;
      this.nextBidId := nextBidId;
      memesAtStart := |memes|;
      bidsAtStart := |bids|;
    }

    /**
     * POST /memes. `gen` is the language model (its reply text, or None
     * when the call throws), `parse` is JSON.parse, `insertError` the
     * store's error message if the insert fails.
     */
    method CreateMeme(title: string, imageUrl: Option<string>, tags: seq<string>, owner: string,
                      gen: Caption.Request -> Option<string>,
                      parse: string -> Option<Caption.CaptionVibe>,
                      insertError: Option<string>, createdAt: int)
      returns (r: Response<Meme>)
      requires Valid()
      modifies this
      ensures Valid()
      ensures r.Fail? ==> unchanged(this)
      ensures Users.Lookup(owner).None? ==> r == Fail(401, "User not found")
      ensures Users.Lookup(owner).Some? && insertError.Some? ==>
                r == Fail(500, "Server glitch: " + insertError.value)
      ensures Users.Lookup(owner).Some? && insertError.None? ==>
                var url := ResolveImage(imageUrl);
                var cv := Caption.Generate(gen(Caption.Request(title, tags, url)), parse);
                var m := Meme(old(nextMemeId), title, url, tags, Users.Lookup(owner).value.id,
                              cv.caption, cv.vibe, 0, createdAt);
                && old(nextMemeId) !in old(memes)
                && r == Ok(m)
                && memes == old(memes)[m.id := m]
                && events == old(events) + [NewMeme(m)]
                && bids == old(bids) && leaderboardCache == old(leaderboardCache)
                && nextMemeId == old(nextMemeId) + 1 && nextBidId == old(nextBidId)
    {
      var user := Users.Lookup(owner);
      if user.None? {
        return Fail(401, "User not found");
      }
      var url := ResolveImage(imageUrl);
      var cv := Caption.Generate(gen(Caption.Request(title, tags, url)), parse);
      if insertError.Some? {
        return Fail(500, "Server glitch: " + insertError.value);
      }
      var m := Meme(nextMemeId, title, url, tags, user.value.id, cv.caption, cv.vibe, 0, createdAt);
      CommitMeme(m);
      r := Ok(m);
    }

    /** The success path of POST /memes: store the row under the next id, then emit new_meme. */
    method CommitMeme(m: Meme)
      requires Valid() && m.id == nextMemeId
      modifies this
      ensures Valid()
      ensures old(nextMemeId) !in old(memes)
      ensures memes == old(memes)[m.id := m]
      ensures events == old(events) + [NewMeme(m)]
      ensures bids == old(bids) && leaderboardCache == old(leaderboardCache)
      ensures nextMemeId == old(nextMemeId) + 1 && nextBidId == old(nextBidId)
    {
      InsertMemeKeepsInv(memes, bids, leaderboardCache, events, nextMemeId, nextBidId,
                          memesAtStart, bidsAtStart, m);
      memes := memes[m.id := m];
      nextMemeId := nextMemeId + 1;
      events := events + [NewMeme(m)];
    }

    /** POST /bids. `insertError` is the store's error message if the insert fails. */
    method PlaceBid(memeId: int, user: string, credits: Option<int>, insertError: Option<string>)
      returns (r: Response<Bid>)
      requires Valid()
      modifies this
      ensures Valid()
      ensures r.Fail? ==> unchanged(this)
      ensures Users.Lookup(user).None? ==> r == Fail(401, "User not found")
      ensures Users.Lookup(user).Some? && !CreditsAccepted(credits) ==> r == Fail(400, "Invalid bid")
      ensures Users.Lookup(user).Some? && CreditsAccepted(credits) && insertError.Some? ==>
                r == Fail(500, "Server glitch: " + insertError.value)
      ensures Users.Lookup(user).Some? && CreditsAccepted(credits) && insertError.None? ==>
                var b := Bid(old(nextBidId), memeId, Users.Lookup(user).value.id, credits.value);
                && r == Ok(b)
                && bids == old(bids) + [b]
                && events == old(events) + [NewBid(memeId, credits.value, user)]
                && memes == old(memes) && leaderboardCache == old(leaderboardCache)
                && nextBidId == old(nextBidId) + 1 && nextMemeId == old(nextMemeId)
    {
      var bidder := Users.Lookup(user);
      if bidder.None? {
        return Fail(401, "User not found");
      }
      if !CreditsAccepted(credits) {
        return Fail(400, "Invalid bid");
      }
      if insertError.Some? {
        return Fail(500, "Server glitch: " + insertError.value);
      }
      var b := Bid(nextBidId, memeId, bidder.value.id, credits.value);
      CommitBid(b, user);
      r := Ok(b);
    }

    /** The success path of POST /bids: append the row, then emit new_bid with the bidder's handle. */
    method CommitBid(b: Bid, user: string)
      requires Valid() && b.id == nextBidId
      modifies this
      ensures Valid()
      ensures bids == old(bids) + [b]
      ensures events == old(events) + [NewBid(b.memeId, b.credits, user)]
      ensures memes == old(memes) && leaderboardCache == old(leaderboardCache)
      ensures nextBidId == old(nextBidId) + 1 && nextMemeId == old(nextMemeId)
    {
      AppendBidKeepsInv(memes, bids, leaderboardCache, events, nextMemeId, nextBidId,
                         memesAtStart, bidsAtStart, b, user);
      bids := bids + [b];
      nextBidId := nextBidId + 1;
      events := events + [NewBid(b.memeId, b.credits, user)];
    }

    /**
     * POST /memes/:id/vote, with the voter checked against the table's own
     * entries. `fetchFails` says the point lookup of the meme errs;
     * `updateError` is the store's error message if the update fails. The
     * leaderboard query that follows a successful update is taken to
     * succeed.
     */
    method Vote(id: int, voteType: string, user: string, fetchFails: bool, updateError: Option<string>)
      returns (r: Response<Meme>)
      requires Valid()
      modifies this
      ensures Valid()
      ensures r.Fail? ==> unchanged(this)
      ensures Users.Lookup(user).None? ==> r == Fail(401, "User not found")
      ensures Users.Lookup(user).Some? && VoteIncrement(voteType).None? ==> r == Fail(400, "Invalid vote type")
      ensures Users.Lookup(user).Some? && VoteIncrement(voteType).Some? && (fetchFails || id !in old(memes)) ==>
                r == Fail(404, "Meme not found")
      ensures Users.Lookup(user).Some? && VoteIncrement(voteType).Some? && !fetchFails && id in old(memes)
              && updateError.Some? ==>
                r == Fail(500, "Server glitch: " + updateError.value)
      ensures Users.Lookup(user).Some? && VoteIncrement(voteType).Some? && !fetchFails && id in old(memes)
              && updateError.None? ==>
                var m := old(memes)[id].(upvotes := old(memes)[id].upvotes + VoteIncrement(voteType).value);
                && r == Ok(m)
                && memes == old(memes)[id := m]
                && leaderboardCache == Query(memes, nextMemeId)
                && events == old(events) + [VoteUpdate(id, m.upvotes), LeaderboardUpdate(leaderboardCache)]
                && bids == old(bids) && nextMemeId == old(nextMemeId) && nextBidId == old(nextBidId)
    {
      if Users.Lookup(user).None? {
        return Fail(401, "User not found");
      }
      r := ApplyVote(id, voteType, fetchFails, updateError);
    }

    /**
     * POST /memes/:id/vote with the guard as index.js:112 writes it,
     * `!users[user]`, which also admits the names inherited from
     * Object.prototype. Nothing after the guard reads `users[user]`, so such
     * a vote is counted in full.
     */
    method VoteAsWritten(id: int, voteType: string, user: string, fetchFails: bool, updateError: Option<string>)
      returns (r: Response<Meme>)
      requires Valid()
      modifies this
      ensures Valid()
      ensures r.Fail? ==> unchanged(this)
      ensures !Users.PassesGuardAsWritten(user) ==> r == Fail(401, "User not found")
      ensures Users.PassesGuardAsWritten(user) && VoteIncrement(voteType).None? ==> r == Fail(400, "Invalid vote type")
      ensures Users.PassesGuardAsWritten(user) && VoteIncrement(voteType).Some? && (fetchFails || id !in old(memes)) ==>
                r == Fail(404, "Meme not found")
      ensures Users.PassesGuardAsWritten(user) && VoteIncrement(voteType).Some? && !fetchFails && id in old(memes)
              && updateError.Some? ==>
                r == Fail(500, "Server glitch: " + updateError.value)
      ensures Users.PassesGuardAsWritten(user) && VoteIncrement(voteType).Some? && !fetchFails && id in old(memes)
              && updateError.None? ==>
                var m := old(memes)[id].(upvotes := old(memes)[id].upvotes + VoteIncrement(voteType).value);
                && r == Ok(m)
                && memes == old(memes)[id := m]
                && leaderboardCache == Query(memes, nextMemeId)
                && events == old(events) + [VoteUpdate(id, m.upvotes), LeaderboardUpdate(leaderboardCache)]
                && bids == old(bids) && nextMemeId == old(nextMemeId) && nextBidId == old(nextBidId)
    {
      if !Users.PassesGuardAsWritten(user) {
        return Fail(401, "User not found");
      }
      r := ApplyVote(id, voteType, fetchFails, updateError);
    }

    /**
     * The vote handler after its user guard (index.js:113-145): the vote
     * type is checked, the meme fetched, its count written, and the new
     * count and the recomputed leaderboard broadcast.
     */
    method ApplyVote(id: int, voteType: string, fetchFails: bool, updateError: Option<string>)
      returns (r: Response<Meme>)
      requires Valid()
      modifies this
      ensures Valid()
      ensures r.Fail? ==> unchanged(this)
      ensures VoteIncrement(voteType).None? ==> r == Fail(400, "Invalid vote type")
      ensures VoteIncrement(voteType).Some? && (fetchFails || id !in old(memes)) ==> r == Fail(404, "Meme not found")
      ensures VoteIncrement(voteType).Some? && !fetchFails && id in old(memes) && updateError.Some? ==>
                r == Fail(500, "Server glitch: " + updateError.value)
      ensures VoteIncrement(voteType).Some? && !fetchFails && id in old(memes) && updateError.None? ==>
                var m := old(memes)[id].(upvotes := old(memes)[id].upvotes + VoteIncrement(voteType).value);
                && r == Ok(m)
                && memes == old(memes)[id := m]
                && leaderboardCache == Query(memes, nextMemeId)
                && events == old(events) + [VoteUpdate(id, m.upvotes), LeaderboardUpdate(leaderboardCache)]
                && bids == old(bids) && nextMemeId == old(nextMemeId) && nextBidId == old(nextBidId)
    {
      var increment := VoteIncrement(voteType);
      if increment.None? {
        return Fail(400, "Invalid vote type");
      }
      if fetchFails || id !in memes {
        return Fail(404, "Meme not found");
      }
      var newUpvotes := memes[id].upvotes + increment.value;
      if updateError.Some? {
        return Fail(500, "Server glitch: " + updateError.value);
      }
      r := CommitVote(id, newUpvotes);
    }

    /**
     * The success path of a vote: write the new count, emit vote_update,
     * replace the cache by a fresh leaderboard query and emit it.
     */
    method CommitVote(id: int, newUpvotes: int) returns (r: Response<Meme>)
      requires Valid() && id in memes
      modifies this
      ensures Valid()
      ensures var m := old(memes)[id].(upvotes := newUpvotes);
                && r == Ok(m)
                && memes == old(memes)[id := m]
                && leaderboardCache == Query(memes, nextMemeId)
                && events == old(events) + [VoteUpdate(id, newUpvotes), LeaderboardUpdate(leaderboardCache)]
                && bids == old(bids) && nextMemeId == old(nextMemeId) && nextBidId == old(nextBidId)
    {
      VoteKeepsInv(memes, bids, leaderboardCache, events, nextMemeId, nextBidId,
                    memesAtStart, bidsAtStart, id, newUpvotes);
      var m := memes[id].(upvotes := newUpvotes);
      memes := memes[id := m];
      events := events + [VoteUpdate(id, newUpvotes)];
      leaderboardCache := Query(memes, nextMemeId);
      events := events + [LeaderboardUpdate(leaderboardCache)];
      r := Ok(m);
    }

    /** GET /leaderboard: the cache as it stands, state untouched. */
    method GetLeaderboard() returns (board: seq<Entry>)
      requires Valid()
      ensures board == leaderboardCache
      ensures |board| <= Limit && SortedDesc(board)
      ensures board == LastBoard(events)
    {
      board := leaderboardCache;
    }
  }

  /**
   * With no failure in between, an up vote followed by a down vote by a
   * known user restores the store; each vote is counted, so the log grows
   * by two events per vote.
   */
  method UpThenDown(s: MemeServer, id: int, user: string)
    requires s.Valid() && id in s.memes && Users.Lookup(user).Some?
    modifies s
    ensures s.Valid()
    ensures s.memes == old(s.memes) && s.bids == old(s.bids)
    ensures |s.events| == |old(s.events)| + 4
  {
    var up := s.Vote(id, "up", user, false, None);
    var down := s.Vote(id, "down", user, false, None);
    assert s.memes[id] == old(s.memes)[id];
  }
}
