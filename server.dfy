/** The four `/posts` route handlers over the shared, in-memory collection. */
module Server {
  import opened Json
  import opened Posts

  /** The status codes the handlers answer with (RFC 9110, sections 15.3.1,
      15.3.2, 15.3.5 and 15.5.5). */
  datatype Status = OK | Created | NoContent | NotFound {
    function Code(): int {
      match this
      case OK => 200
      case Created => 201
      case NoContent => 204
      case NotFound => 404
    }
  }

  /** What the handler writes into the response body. */
  datatype Body = PostArray(posts: seq<Post>) | PostObject(post: Post) | Text(text: string) | Empty

  datatype Response = Response(status: Status, body: Body)

  const PostNotFound: string := "Post not found"

  /** The module-level `blogPosts` array and the handlers that use it. */
  class Store {
    var posts: seq<Post>

    /** The collection as it is when the process starts. */
    constructor ()
      ensures posts == Seed()
    {
      posts := Seed();
    }

    /** GET /posts: the whole collection, in order; nothing changes. */
    method List() returns (resp: Response)
      ensures resp == Response(OK, PostArray(posts))
      ensures resp.status.Code() == 200
    {
      resp := Response(OK, PostArray(posts));
    }

    /** POST /posts: append a shallow copy of the body and answer it with 201. */
    method Create(body: Value) returns (resp: Response)
      modifies this
      ensures posts == old(posts) + [Spread(body)]
      ensures resp == Response(Created, PostObject(Spread(body)))
      ensures resp.status.Code() == 201
    {
      var newPost := Spread(body);
      posts := posts + [newPost];
      resp := Response(Created, PostObject(newPost));
    }

    /** PUT /posts/:id: merge the body into the first post whose id matches
        and answer the merged post, or answer 404 and change nothing. */
    method Update(key: Option<int>, body: Value) returns (resp: Response)
      modifies this
      ensures FindIndex(old(posts), key).None? ==>
                posts == old(posts) && resp == Response(NotFound, Text(PostNotFound))
      ensures FindIndex(old(posts), key).Some? ==>
                var i := FindIndex(old(posts), key).value;
                && posts == ReplaceMerged(old(posts), i, Spread(body))
                && resp == Response(OK, PostObject(Merge(old(posts)[i], Spread(body))))
      ensures resp.status.Code() == (if FindIndex(old(posts), key).Some? then 200 else 404)
    {
      var index := FindIndex(posts, key);
      if index.Some? {
        var i := index.value;
        posts := ReplaceMerged(posts, i, Spread(body));
        resp := Response(OK, PostObject(posts[i]));
      } else {
        resp := Response(NotFound, Text(PostNotFound));
      }
    }

    /** DELETE /posts/:id: drop every post whose id matches; always 204. */
    method Delete(key: Option<int>) returns (resp: Response)
      modifies this
      ensures posts == Without(old(posts), key)
      ensures resp == Response(NoContent, Empty)
      ensures resp.status.Code() == 204
    {
      posts := Without(posts, key);
      resp := Response(NoContent, Empty);
    }
  }

  /** The post the scenario creates, and the same post retitled. */
  function ScenarioPost(title: string): Post {
    map["id" := Num(4), "title" := Str(title), "content" := Str("C")]
  }

  /** The scenario's PUT body. */
  function RetitleBody(): Value {
    Obj(map["title" := Str("T2")])
  }

  /** The scenario's PUT body changes the title and nothing else. */
  lemma ScenarioRetitle()
    ensures Merge(ScenarioPost("T"), Spread(RetitleBody())) == ScenarioPost("T2")
  {
    assert Merge(ScenarioPost("T"), Spread(RetitleBody())).Keys == ScenarioPost("T2").Keys;
  }

  /** In a collection without post 4, the scenario's PUT finds the post
      it created last and replaces it by its retitled version. */
  lemma ScenarioUpdate(s: seq<Post>)
    requires FindIndex(s, Some(4)).None?
    ensures FindIndex(s + [ScenarioPost("T")], Some(4)) == Some(|s|)
    ensures ReplaceMerged(s + [ScenarioPost("T")], |s|, Spread(RetitleBody())) == s + [ScenarioPost("T2")]
  {
    FindIndexAppended(s, ScenarioPost("T"), Some(4));
    ScenarioRetitle();
  }

  /** Create post 4, list, retitle it, delete it, list again, on a store
      that holds no post 4. The store ends as it began. */
  method Scenario(store: Store) returns (responses: seq<Response>)
    requires FindIndex(store.posts, Some(4)).None?
    modifies store
    ensures store.posts == old(store.posts)
    ensures responses == [
      Response(Created, PostObject(ScenarioPost("T"))),
      Response(OK, PostArray(old(store.posts) + [ScenarioPost("T")])),
      Response(OK, PostObject(ScenarioPost("T2"))),
      Response(NoContent, Empty),
      Response(OK, PostArray(old(store.posts)))]
  {
    ghost var s := store.posts;
    ScenarioUpdate(s);
    ScenarioRetitle();
    WithoutAppended(s, ScenarioPost("T2"), Some(4));
    var r0 := store.Create(Obj(ScenarioPost("T")));
    var r1 := store.List();
    var r2 := store.Update(Some(4), RetitleBody());
    var r3 := store.Delete(Some(4));
    var r4 := store.List();
    responses := [r0, r1, r2, r3, r4];
  }

  /** The scenario on a fresh process: the collection ends as the seed. */
  method EndToEnd() returns (responses: seq<Response>)
    ensures |responses| == 5
    ensures responses[0] == Response(Created, PostObject(ScenarioPost("T")))
    ensures responses[1] == Response(OK, PostArray(Seed() + [ScenarioPost("T")]))
    ensures responses[2] == Response(OK, PostObject(ScenarioPost("T2")))
    ensures responses[3] == Response(NoContent, Empty)
    ensures responses[4] == Response(OK, PostArray(Seed()))
  {
    var store := new Store();
    SeedHasOnlyIdsOneToThree(4);
    responses := Scenario(store);
  }
}
