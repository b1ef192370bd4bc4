/** Concrete request sequences against the server, with what each must answer. */
module Scenarios {

  import opened Wrappers
  import Caption
  import opened Records
  import opened Leaderboard
  import opened Server

  /** A generator whose call always throws. */
  function FailingModel(req: Caption.Request): (reply: Option<string>)
  {
    None
  }

  /** A parser that always throws. */
  function ThrowingParse(text: string): (parsed: Option<Caption.CaptionVibe>)
  {
    None
  }

  /**
   * `POST /memes {title: "Glitch Cat", tags: ["cyber"], owner: "neonhacker"}`
   * on an empty store, with a failing generator: the first meme, with the
   * placeholder image, the fallback caption and vibe, no upvotes and owner
   * id 1, broadcast on the new_meme channel.
   */
  method GlitchCatWithFailingGenerator(createdAt: int) returns (r: Response<Meme>, emitted: seq<Event>)
    ensures r == Ok(Meme(1, "Glitch Cat", "https://picsum.photos/200", ["cyber"], 1,
                         "YOLO to the moon!", "Neon Chaos Mode", 0, createdAt))
    ensures emitted == [NewMeme(r.body)] && emitted[0].Name() == "new_meme"
  {
    var s := new MemeServer(map[], [], 1, 1);
    r := s.CreateMeme("Glitch Cat", None, ["cyber"], "neonhacker", FailingModel, ThrowingParse, None, createdAt);
    emitted := s.events;
  }

  /**
   * Bids of -10 and of 0 credits on meme 5 are both refused with 400 and
   * write nothing; a bid of 1 credit is accepted.
   */
  method NonPositiveBidsRefused() returns (negative: Response<Bid>, zero: Response<Bid>, one: Response<Bid>, bids: seq<Bid>)
    ensures negative == Fail(400, "Invalid bid")
    ensures zero == Fail(400, "Invalid bid")
    ensures one == Ok(Bid(1, 5, 1, 1))
    ensures bids == [Bid(1, 5, 1, 1)]
  {
    var s := new MemeServer(map[], [], 1, 1);
    negative := s.PlaceBid(5, "neonhacker", Some(-10), None);
    zero := s.PlaceBid(5, "neonhacker", Some(0), None);
    one := s.PlaceBid(5, "neonhacker", Some(1), None);
    bids := s.bids;
  }

  /**
   * `POST /memes/5/vote {type: "up", user: "cybershadow"}` on a meme with 3
   * upvotes answers 4, broadcasts the new count and then the recomputed
   * leaderboard, which becomes the cache.
   */
  method UpVoteOnThree(s: MemeServer) returns (r: Response<Meme>)
    requires s.Valid() && 5 in s.memes && s.memes[5].upvotes == 3
    modifies s
    ensures r.Ok? && r.body.id == 5 && r.body.upvotes == 4
    ensures s.events == old(s.events) + [VoteUpdate(5, 4), LeaderboardUpdate(s.leaderboardCache)]
    ensures s.leaderboardCache == Query(s.memes, s.nextMemeId)
    ensures s.events[|s.events| - 2].Name() == "vote_update"
    ensures s.events[|s.events| - 1].Name() == "leaderboard_update"
  {
    r := s.Vote(5, "up", "cybershadow", false, None);
  }

  /**
   * The handle "toString" names no user. The intended guard refuses its
   * vote with 401; the guard as written lets it through, and the vote is
   * counted and broadcast like any other.
   */
  method InheritedHandleVoteCounted(s: MemeServer) returns (refused: Response<Meme>, counted: Response<Meme>)
    requires s.Valid() && 5 in s.memes
    modifies s
    ensures refused == Fail(401, "User not found")
    ensures counted == Ok(old(s.memes)[5].(upvotes := old(s.memes)[5].upvotes + 1))
    ensures s.events == old(s.events) + [VoteUpdate(5, counted.body.upvotes), LeaderboardUpdate(s.leaderboardCache)]
  {
    refused := s.Vote(5, "up", "toString", false, None);
    counted := s.VoteAsWritten(5, "up", "toString", false, None);
  }

  /**
   * A process restarted over a store that already holds a meme serves an
   * empty leaderboard until the first vote refills the cache.
   */
  method RestartedServerBoardIsEmpty(m: Meme) returns (before: seq<Entry>, after: seq<Entry>)
    requires m.id == 1
    ensures before == []
    ensures after == [ToEntry(m.(upvotes := m.upvotes + 1))]
  {
    var s := new MemeServer(map[1 := m], [], 2, 1);
    before := s.GetLeaderboard();
    var v := s.Vote(1, "up", "neonhacker", false, None);
    OneMemeBoard(s.memes, m.(upvotes := m.upvotes + 1));
    after := s.GetLeaderboard();
  }

  /** A down vote on a fresh meme takes it to -1: there is no floor. */
  method DownVoteBelowZero(createdAt: int) returns (down: Response<Meme>)
    ensures down.Ok? && down.body.id == 1 && down.body.upvotes == -1
  {
    var s := new MemeServer(map[], [], 1, 1);
    var a := s.CreateMeme("Dog", Some(""), [], "cybershadow", FailingModel, ThrowingParse, None, createdAt);
    down := s.Vote(1, "down", "neonhacker", false, None);
  }

  /** An unknown voter, a bad vote type and an unknown meme are refused in that order. */
  method RefusedVotes(createdAt: int) returns (stranger: Response<Meme>, sideways: Response<Meme>,
                                               missing: Response<Meme>, events: seq<Event>)
    ensures stranger == Fail(401, "User not found")
    ensures sideways == Fail(400, "Invalid vote type")
    ensures missing == Fail(404, "Meme not found")
    ensures |events| == 1 && events[0].NewMeme?
  {
    var s := new MemeServer(map[], [], 1, 1);
    var a := s.CreateMeme("Dog", None, [], "cybershadow", FailingModel, ThrowingParse, None, createdAt);
    stranger := s.Vote(1, "sideways", "nobody", false, None);
    sideways := s.Vote(1, "sideways", "neonhacker", false, None);
    missing := s.Vote(7, "up", "neonhacker", false, None);
    events := s.events;
  }

  /** The leaderboard query over a store holding only meme 1. */
  lemma OneMemeBoard(memes: map<int, Meme>, m: Meme)
    requires memes == map[1 := m]
    ensures Query(memes, 2) == [ToEntry(m)]
  {
    assert Rows(memes, 1) == [];
    assert Rows(memes, 2) == [m];
    assert Entries([m]) == [ToEntry(m)];
    assert SortByUpvotes([ToEntry(m)]) == [ToEntry(m)] by { assert [ToEntry(m)][1..] == []; }
  }

  /** The table scan over a store of two memes, ids 1 and 2. */
  lemma TwoMemeRows(memes: map<int, Meme>, first: Meme, second: Meme)
    requires memes == map[1 := first, 2 := second]
    ensures Rows(memes, 3) == [first, second]
  {
    assert Rows(memes, 1) == [];
    assert Rows(memes, 2) == [first];
  }

  /** Sorting two rows puts the one with more upvotes first, and keeps their order on a tie. */
  lemma SortTwo(e1: Entry, e2: Entry)
    ensures SortByUpvotes([e1, e2]) == if e1.upvotes >= e2.upvotes then [e1, e2] else [e2, e1]
  {
    assert [e1, e2][1..] == [e2];
    assert SortByUpvotes([e2]) == [e2] by { assert [e2][1..] == []; }
    assert SortByUpvotes([e1, e2]) == Insert(e1, [e2]);
    if e1.upvotes < e2.upvotes {
      assert Insert(e1, [e2]) == [e2] + Insert(e1, []);
    }
  }

  /** The leaderboard query over a store of two memes, ids 1 and 2. */
  lemma TwoMemeBoard(memes: map<int, Meme>, first: Meme, second: Meme)
    requires memes == map[1 := first, 2 := second]
    ensures Query(memes, 3) == if first.upvotes >= second.upvotes
                               then [ToEntry(first), ToEntry(second)]
                               else [ToEntry(second), ToEntry(first)]
  {
    TwoMemeRows(memes, first, second);
    assert Entries([first, second]) == [ToEntry(first), ToEntry(second)];
    SortTwo(ToEntry(first), ToEntry(second));
  }

  /**
   * Two fresh memes; one up vote on the second puts it ahead of the first,
   * which was created earlier.
   */
  method VoteReordersBoard(createdAt: int) returns (board: seq<Entry>)
    ensures board == [Entry(2, "Dog", 1), Entry(1, "Glitch Cat", 0)]
  {
    var s := new MemeServer(map[], [], 1, 1);
    var a := s.CreateMeme("Glitch Cat", None, ["cyber"], "neonhacker", FailingModel, ThrowingParse, None, createdAt);
    var b := s.CreateMeme("Dog", None, [], "cybershadow", FailingModel, ThrowingParse, None, createdAt);
    var v := s.Vote(2, "up", "neonhacker", false, None);
    assert s.memes == map[1 := a.body, 2 := b.body.(upvotes := 1)];
    TwoMemeBoard(s.memes, a.body, b.body.(upvotes := 1));
    board := s.GetLeaderboard();
  }
}
