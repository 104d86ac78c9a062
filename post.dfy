/** A published post with everything the loader fetched for it. */
module Posts {
  import opened Wrappers
  import opened Entities
  import opened EventModel
  import opened TicketModel

  /**
   * `posts` holds the posts a river card may list (each with its own body); `events`, `photos`,
   * `people`, `locations` and `tickets` were loaded for this post and those posts together.
   */
  datatype Post = Post(
    id: int, postId: int, title: string, slug: string, body: string, featured: bool,
    section: Option<Section>, photos: seq<Photo>, locations: seq<Location>, people: seq<Person>,
    events: seq<Event>, tickets: seq<Ticket>, posts: seq<Post>, group: Group)
}
