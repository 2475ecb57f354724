/** The shape of a blog post as the remote service returns it, and of a post about to be created. */
module Api {
  import opened Wrappers

  /** The read time the views show for a post that has none, or an empty one. */
  const DefaultReadTime := "5 min read"

  datatype Author = Author(name: string, role: string, avatar: string)

  /** A stored post; `id` is assigned by the service. */
  datatype Blog = Blog(
    id: string,
    title: string,
    category: seq<string>,
    description: string,
    date: string,
    readTime: Option<string>,
    coverImage: string,
    content: string,
    author: Option<Author>,
    tags: Option<seq<string>>)

  /** A post without its `id`: what the client sends to be created. */
  datatype Draft = Draft(
    title: string,
    category: seq<string>,
    description: string,
    date: string,
    readTime: Option<string>,
    coverImage: string,
    content: string,
    author: Option<Author>,
    tags: Option<seq<string>>)
}
