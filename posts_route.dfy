/** The `/api/posts` route: listing posts newest first and creating a post,
    both behind bearer authentication. Creating validates and normalises the
    body, inserts the row, then asks the tag-post route to link each tag and
    the category-post route to link each category, in order. */
module PostsRoute {
  import opened Wrappers
  import opened Strings
  import opened Js
  import opened Http
  import opened Ordering
  import opened BearerAuth

  /** A row of the `posts` table. */
  datatype Post = Post(id: int, title: string, content: string, imageUrl: Option<string>,
                       author: string, createdAt: int)

  /** The JSON body of a create request; `None` is a field that is absent or
      null. */
  datatype PostBody = PostBody(title: Option<string>, content: Option<string>, imageUrl: Option<string>,
                               tags: Option<seq<JsValue>>, categories: Option<seq<JsValue>>)

  /** One request the handler sends after the insert: `{ postId, tagId }` to
      the tag-post route or `{ postId, categoryId }` to the category-post
      route. */
  datatype Link = TagLink(postId: int, tagId: JsValue) | CategoryLink(postId: int, categoryId: JsValue)

  const REQUIRED := "Title and content are required"
  const INTERNAL := "Internal server error"

  /** `!body.title?.trim() || !body.content?.trim()` fails. */
  function HasTitleAndContent(body: PostBody): (ok: bool)
    ensures ok <==> && body.title.Some? && !AllWhiteSpace(body.title.value)
                    && body.content.Some? && !AllWhiteSpace(body.content.value)
  {
    if body.title.Some? && body.content.Some? then
      TrimEmptyIff(body.title.value);
      TrimEmptyIff(body.content.value);
      Trim(body.title.value) != "" && Trim(body.content.value) != ""
    else false
  }

  /** A title or content of white space alone is as good as a missing one. */
  lemma BlankTitleIsMissing(body: PostBody)
    requires body.title.Some? && AllWhiteSpace(body.title.value)
    ensures !HasTitleAndContent(body)
  {
    TrimEmptyIff(body.title.value);
  }

  /** `body.image_url?.trim() || null` */
  function ImageUrl(raw: Option<string>): (url: Option<string>)
    ensures url.Some? <==> raw.Some? && !AllWhiteSpace(raw.value)
    ensures url.Some? ==> url.value == Trim(raw.value)
  {
    if raw.Some? then TrimEmptyIff(raw.value); Nonempty(Some(Trim(raw.value))) else None
  }

  /** The row that is inserted for a valid body. */
  function NewPost(body: PostBody, id: int, author: string, now: int): (p: Post)
    requires HasTitleAndContent(body)
    ensures p.id == id && p.author == author && p.createdAt == now
    ensures p.title == Trim(body.title.value) && p.content == Trim(body.content.value)
    ensures p.imageUrl == ImageUrl(body.imageUrl)
  {
    Post(id, Trim(body.title.value), Trim(body.content.value), ImageUrl(body.imageUrl), author, now)
  }

  /** The stored text fields are normalised: non-empty, with no white space
      at either end, and storing them again would store the same values. */
  lemma StoredFieldsAreNormal(body: PostBody, id: int, author: string, now: int)
    requires HasTitleAndContent(body)
    ensures var p := NewPost(body, id, author, now);
            && p.title != "" && !IsWhiteSpace(p.title[0]) && !IsWhiteSpace(p.title[|p.title| - 1])
            && p.content != "" && !IsWhiteSpace(p.content[0]) && !IsWhiteSpace(p.content[|p.content| - 1])
            && var again := PostBody(Some(p.title), Some(p.content), p.imageUrl, body.tags, body.categories);
               HasTitleAndContent(again) && NewPost(again, id, author, now) == p
  {
    var p := NewPost(body, id, author, now);
    TrimIdempotent(body.title.value);
    TrimIdempotent(body.content.value);
    if body.imageUrl.Some? {
      TrimIdempotent(body.imageUrl.value);
      TrimEmptyIff(body.imageUrl.value);
      if p.imageUrl.Some? {
        TrimEmptyIff(p.imageUrl.value);
      }
    }
  }

  /** The tag-post requests for `tags`, one per tag, in order. */
  function TagLinks(postId: int, tags: seq<JsValue>): (r: seq<Link>)
    ensures |r| == |tags|
    ensures forall i :: 0 <= i < |tags| ==> r[i] == TagLink(postId, tags[i])
  {
    seq(|tags|, i requires 0 <= i < |tags| => TagLink(postId, tags[i]))
  }

  /** The category-post requests for `categories`, one per category, in
      order. */
  function CategoryLinks(postId: int, categories: seq<JsValue>): (r: seq<Link>)
    ensures |r| == |categories|
    ensures forall i :: 0 <= i < |categories| ==> r[i] == CategoryLink(postId, categories[i])
  {
    seq(|categories|, i requires 0 <= i < |categories| => CategoryLink(postId, categories[i]))
  }

  /** `for (const tag of body.tags)`: one request per tag, in order. */
  method SendTagLinks(postId: int, tags: seq<JsValue>) returns (calls: seq<Link>)
    ensures calls == TagLinks(postId, tags)
  {
    calls := [];
    var i := 0;
    while i < |tags|
      invariant 0 <= i <= |tags|
      invariant calls == TagLinks(postId, tags[..i])
    {
      calls := calls + [TagLink(postId, tags[i])];
      i := i + 1;
    }
    assert tags[..i] == tags;
  }

  /** `for (const category of body.categories)`: one request per category,
      in order. */
  method SendCategoryLinks(postId: int, categories: seq<JsValue>) returns (calls: seq<Link>)
    ensures calls == CategoryLinks(postId, categories)
  {
    calls := [];
    var j := 0;
    while j < |categories|
      invariant 0 <= j <= |categories|
      invariant calls == CategoryLinks(postId, categories[..j])
    {
      calls := calls + [CategoryLink(postId, categories[j])];
      j := j + 1;
    }
    assert categories[..j] == categories;
  }

  function CreatedAt(p: Post): int { p.createdAt }

  /** The `posts` table and the route's two handlers. */
  class PostStore {
    var posts: seq<Post>

    constructor (posts: seq<Post>)
      ensures this.posts == posts
    {
      this.posts := posts;
    }

    /** GET: every post, newest first, to an authenticated caller. */
    method List(header: Option<string>, getUser: string -> Lookup, storeFails: bool)
      returns (resp: Response<Body<seq<Post>>>)
      ensures VerifyAuth(header, getUser).AuthFailed? ==>
                resp == Response(UNAUTHORIZED, ErrorBody(VerifyAuth(header, getUser).error))
      ensures VerifyAuth(header, getUser).Authenticated? && storeFails ==>
                resp == Response(SERVER_ERROR, ErrorBody("Error fetching posts"))
      ensures VerifyAuth(header, getUser).Authenticated? && !storeFails ==>
                && resp.status == OK && resp.body.DataBody?
                && SortedBy(resp.body.data, CreatedAt, Descending)
                && multiset(resp.body.data) == multiset(posts)
    {
      var auth := VerifyAuth(header, getUser);
      if auth.AuthFailed? {
        return Response(UNAUTHORIZED, ErrorBody(auth.error));
      }
      if storeFails {
        return Response(SERVER_ERROR, ErrorBody("Error fetching posts"));
      }
      resp := Response(OK, DataBody(Sort(posts, CreatedAt, Descending)));
    }

    /** POST: authenticate, read the body, validate, insert, then send the
        tag links and the category links. `body` is `None` when the request
        is not JSON; `insert` is the id the table assigned, or `None` when
        the insert failed. A `tags` or `categories` that cannot be iterated
        makes the handler answer 500 after the row was inserted. */
    method Create(header: Option<string>, getUser: string -> Lookup, body: Option<PostBody>,
                  now: int, insert: Option<int>)
      returns (resp: Response<Body<Post>>, calls: seq<Link>)
      modifies this
      ensures var auth := VerifyAuth(header, getUser);
              auth.AuthFailed? ==>
                resp == Response(UNAUTHORIZED, ErrorBody(auth.error)) && posts == old(posts) && calls == []
      ensures VerifyAuth(header, getUser).Authenticated? && body.None? ==>
                resp == Response(SERVER_ERROR, ErrorBody(INTERNAL)) && posts == old(posts) && calls == []
      ensures VerifyAuth(header, getUser).Authenticated? && body.Some? && !HasTitleAndContent(body.value) ==>
                resp == Response(BAD_REQUEST, ErrorBody(REQUIRED)) && posts == old(posts) && calls == []
      ensures VerifyAuth(header, getUser).Authenticated? && body.Some? && HasTitleAndContent(body.value)
              && insert.None? ==>
                resp == Response(SERVER_ERROR, ErrorBody("Error creating post")) && posts == old(posts) && calls == []
      ensures var auth := VerifyAuth(header, getUser);
              auth.Authenticated? && body.Some? && HasTitleAndContent(body.value) && insert.Some? ==>
                var post := NewPost(body.value, insert.value, auth.userId, now);
                && posts == old(posts) + [post]
                && (body.value.tags.None? ==>
                      calls == [] && resp == Response(SERVER_ERROR, ErrorBody(INTERNAL)))
                && (body.value.tags.Some? && body.value.categories.None? ==>
                      calls == TagLinks(post.id, body.value.tags.value)
                      && resp == Response(SERVER_ERROR, ErrorBody(INTERNAL)))
                && (body.value.tags.Some? && body.value.categories.Some? ==>
                      calls == TagLinks(post.id, body.value.tags.value)
                               + CategoryLinks(post.id, body.value.categories.value)
                      && resp == Response(OK, DataBody(post)))
    {
      calls := [];
      var auth := VerifyAuth(header, getUser);
      if auth.AuthFailed? {
        return Response(UNAUTHORIZED, ErrorBody(auth.error)), calls;
      }
      if body.None? {
        return Response(SERVER_ERROR, ErrorBody(INTERNAL)), calls;
      }
      var b := body.value;
      if !HasTitleAndContent(b) {
        return Response(BAD_REQUEST, ErrorBody(REQUIRED)), calls;
      }
      if insert.None? {
        return Response(SERVER_ERROR, ErrorBody("Error creating post")), calls;
      }
      var post := NewPost(b, insert.value, auth.userId, now);
      posts := posts + [post];
      if b.tags.None? {
        return Response(SERVER_ERROR, ErrorBody(INTERNAL)), calls;
      }
      calls := SendTagLinks(post.id, b.tags.value);
      if b.categories.None? {
        return Response(SERVER_ERROR, ErrorBody(INTERNAL)), calls;
      }
      var categoryCalls := SendCategoryLinks(post.id, b.categories.value);
      calls := calls + categoryCalls;
      resp := Response(OK, DataBody(post));
    }
  }

  /** The requests go out tags first, then categories, each for the new
      post and each in the order of the body's list. */
  lemma LinkOrder(postId: int, tags: seq<JsValue>, categories: seq<JsValue>)
    ensures var calls := TagLinks(postId, tags) + CategoryLinks(postId, categories);
            && |calls| == |tags| + |categories|
            && (forall k :: 0 <= k < |calls| ==> calls[k].postId == postId)
            && (forall k :: 0 <= k < |calls| ==> (calls[k].TagLink? <==> k < |tags|))
  {
  }
}
