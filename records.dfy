/** The rows of the two store tables the handlers write (index.js:71-78, index.js:94-98). */
module Records {

  /**
   * A row of the `memes` table. The id and the creation time are assigned
   * by the store; `upvotes` starts at the store's default 0 and may become
   * negative.
   */
  datatype Meme = Meme(
    id: int,
    title: string,
    imageUrl: string,
    tags: seq<string>,
    ownerId: int,
    caption: string,
    vibe: string,
    upvotes: int,
    createdAt: int)

  /** A row of the `bids` table. Nothing ties `credits` to the bidder's balance. */
  datatype Bid = Bid(id: int, memeId: int, userId: int, credits: int)
}
