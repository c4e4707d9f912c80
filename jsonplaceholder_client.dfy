/**
 * The JSONPlaceholder client: fixed endpoints and payloads over the base
 * client, and the two fixed schemas for posts and users.
 */
module JsonPlaceholderClient {
  import opened Wrappers
  import opened Text
  import opened Json
  import opened BaseApiClient

  const BaseUrl: string := "https://jsonplaceholder.typicode.com"

  const Posts: string := "/posts"
  const Comments: string := "/comments"
  const Users: string := "/users"
  const Albums: string := "/albums"
  const Photos: string := "/photos"
  const Todos: string := "/todos"

  /** An endpoint template with one `{name}` placeholder: the text before it and after it. */
  datatype Template = Template(prefix: string, suffix: string)

  const PostById: Template := Template("/posts/", "")
  const CommentsByPost: Template := Template("/posts/", "/comments")
  const UserById: Template := Template("/users/", "")
  const AlbumsByUser: Template := Template("/users/", "/albums")
  const PhotosByAlbum: Template := Template("/albums/", "/photos")
  const TodosByUser: Template := Template("/users/", "/todos")

  /** `template.format(name=id)`: the id's decimal text in place of the
      placeholder, so that the id can be read back from the endpoint. */
  function Format(t: Template, id: int): (e: string)
    ensures |e| > |t.prefix| + |t.suffix|
    ensures e[..|t.prefix|] == t.prefix && e[|e| - |t.suffix|..] == t.suffix
    ensures e[|t.prefix|..|e| - |t.suffix|] == IntToString(id)
    ensures var p := ParseInt(e[|t.prefix|..|e| - |t.suffix|]); p.ParseResult? && ParsedValue(p) == id
  {
    var digits := IntToString(id);
    var e := t.prefix + digits + t.suffix;
    assert e[|t.prefix|..|e| - |t.suffix|] == digits;
    e
  }

  /** Different ids give different endpoints. */
  lemma FormatInjective(t: Template, a: int, b: int)
    requires Format(t, a) == Format(t, b)
    ensures a == b
  {
  }

  /** The body `create_post` sends. */
  function PostPayload(title: string, body: string, userId: int): (m: map<string, Json>)
    ensures m.Keys == {"title", "body", "userId"}
    ensures m["title"] == JString(title) && m["body"] == JString(body) && m["userId"] == JInt(userId)
  {
    map["title" := JString(title), "body" := JString(body), "userId" := JInt(userId)]
  }

  /** The body `update_post` sends: the create payload plus the post's id. */
  function UpdatePayload(postId: int, title: string, body: string, userId: int): (m: map<string, Json>)
    ensures m.Keys == {"id", "title", "body", "userId"}
    ensures m["id"] == JInt(postId) && m - {"id"} == PostPayload(title, body, userId)
  {
    PostPayload(title, body, userId)["id" := JInt(postId)]
  }

  /** Both payloads are non-empty dicts, so post and put attach them as the JSON body. */
  lemma PayloadsAreSent(postId: int, title: string, body: string, userId: int)
    ensures JsonBodyFor(Some(PostPayload(title, body, userId))) == Some(JObject(PostPayload(title, body, userId)))
    ensures JsonBodyFor(Some(UpdatePayload(postId, title, body, userId)))
         == Some(JObject(UpdatePayload(postId, title, body, userId)))
  {
    assert "title" in PostPayload(title, body, userId);
    assert "title" in UpdatePayload(postId, title, body, userId);
  }

  /** The keys the post schema lists. */
  const PostKeys: set<string> := {"id", "title", "body", "userId"}

  /** The schema of `verify_post_schema`: an object whose required id, title,
      body and userId are an integer, two strings and an integer. */
  predicate PostSchema(j: Json)
  {
    && j.JObject?
    && HasRequired(j.fields, PostKeys)
    && PropertyHasType(j.fields, "id", TInteger)
    && PropertyHasType(j.fields, "title", TString)
    && PropertyHasType(j.fields, "body", TString)
    && PropertyHasType(j.fields, "userId", TInteger)
  }

  /** The keys the user schema requires. */
  const UserRequired: set<string> := {"id", "name", "username", "email"}

  /** The schema of `verify_user_schema`: id, name, username and email are
      required; address and company, when present, are objects; phone and
      website, when present, are strings. */
  predicate UserSchema(j: Json)
  {
    && j.JObject?
    && HasRequired(j.fields, UserRequired)
    && PropertyHasType(j.fields, "id", TInteger)
    && PropertyHasType(j.fields, "name", TString)
    && PropertyHasType(j.fields, "username", TString)
    && PropertyHasType(j.fields, "email", TString)
    && PropertyHasType(j.fields, "address", TObject)
    && PropertyHasType(j.fields, "phone", TString)
    && PropertyHasType(j.fields, "website", TString)
    && PropertyHasType(j.fields, "company", TObject)
  }

  /** `verify_post_schema`: passes iff the value satisfies the post schema. */
  function VerifyPostSchema(post: Json): (c: Check)
    ensures c.passed <==> PostSchema(post)
    ensures c.event == if c.passed then SuccessEvent else ErrorEvent
  {
    SchemaCheck(JsonBody(post), PostSchema)
  }

  /** `verify_user_schema`: passes iff the value satisfies the user schema. */
  function VerifyUserSchema(user: Json): (c: Check)
    ensures c.passed <==> UserSchema(user)
    ensures c.event == if c.passed then SuccessEvent else ErrorEvent
  {
    SchemaCheck(JsonBody(user), UserSchema)
  }

  /** Exactly the post schema's four typed members decide it: members with other
      names may be added, changed or removed freely. */
  lemma PostSchemaIgnoresOtherKeys(fields: map<string, Json>, key: string, value: Json)
    requires key !in PostKeys
    ensures PostSchema(JObject(fields[key := value])) <==> PostSchema(JObject(fields))
    ensures PostSchema(JObject(fields - {key})) <==> PostSchema(JObject(fields))
  {
    assert forall k :: k in PostKeys ==> (k in fields[key := value] <==> k in fields);
    assert forall k :: k in PostKeys ==> (k in fields - {key} <==> k in fields);
  }

  /** Removing any required member makes a post fail the schema. */
  lemma PostSchemaNeedsEveryKey(fields: map<string, Json>, key: string)
    requires key in PostKeys
    ensures !PostSchema(JObject(fields - {key}))
  {
  }

  /** A post as `update_post` sends it satisfies the schema; what `create_post`
      sends does so once the server has added an integer id. */
  lemma PayloadsSatisfyPostSchema(postId: int, title: string, body: string, userId: int, newId: int)
    ensures PostSchema(JObject(UpdatePayload(postId, title, body, userId)))
    ensures PostSchema(JObject(PostPayload(title, body, userId)["id" := JInt(newId)]))
    ensures !PostSchema(JObject(PostPayload(title, body, userId)))
  {
    assert "id" !in PostPayload(title, body, userId);
  }

  /** Removing any required member makes a user fail the schema, while the
      optional members may be absent. */
  lemma UserSchemaRequiredAndOptional(fields: map<string, Json>, key: string)
    ensures key in UserRequired ==> !UserSchema(JObject(fields - {key}))
    ensures key !in UserRequired && UserSchema(JObject(fields)) ==> UserSchema(JObject(fields - {key}))
  {
    if key !in UserRequired && UserSchema(JObject(fields)) {
      assert forall k :: k in UserRequired ==> k in fields - {key};
    }
  }

  /** What the endpoint methods return to the test: the decoded body, or the
      error raised by the transport or by `response.json()`. */
  datatype Fetched = Returned(value: Json) | TransportFailed(reason: string) | DecodeFailed(text: string)

  /** `return response.json()` after a request: the status plays no part. */
  function Decoded(sent: Sent): Fetched
  {
    match sent
    case Raised(reason) => TransportFailed(reason)
    case Responded(response) =>
      match response.body
      case JsonBody(v) => Returned(v)
      case NotJson(text) => DecodeFailed(text)
  }

  /** The log call of the status check, made only when a response came back. */
  function StatusEvents(sent: Sent, code: int): seq<Event>
  {
    if sent.Responded? then [StatusCheck(sent.response, Code(code)).event] else []
  }

  /** Two responses that differ only in status decode alike: a getter returns the
      body even when its status check fails. */
  lemma StatusDoesNotGateResult(r: Response, status: int)
    ensures Decoded(Responded(r.(status := status))) == Decoded(Responded(r))
  {
  }

  class PlaceholderClient {
    const api: Client

    constructor (network: nat -> CallOutcome)
      ensures fresh(api)
      ensures api.baseUrl == BaseUrl && api.headers == DefaultHeaders && api.network == network
      ensures api.calls == [] && api.slept == 0 && api.log == []
    {
      api := new Client(BaseUrl, None, network);
    }

    /** One endpoint method's effect on the client: a step, then the request's
        retry run, then the status check when a response came back. */
    twostate predicate Performed(request: Request, code: int)
      reads this, api
    {
      var e := Retry(api.network, |old(api.calls)|);
      && api.calls == old(api.calls) + Repeat(request, e.attempts)
      && api.slept == old(api.slept) + (e.attempts - 1) * RetryDelay
      && api.log == old(api.log) + [StepEvent, StepEvent] + RunEvents(e) + StatusEvents(e.sent, code)
    }

    /** The status check and `response.json()` that end every endpoint method but delete. */
    method Finish(sent: Sent, code: int) returns (result: Fetched)
      modifies api
      ensures api.log == old(api.log) + StatusEvents(sent, code)
      ensures result == Decoded(sent)
      ensures unchanged(api`calls) && unchanged(api`slept)
    {
      match sent {
        case Raised(reason) =>
          result := TransportFailed(reason);
        case Responded(response) =>
          var check := StatusCheck(response, Code(code));
          api.log := api.log + [check.event];
          result := Decoded(sent);
      }
    }

    /** A GET of `endpoint` checked against status 200. */
    method Fetch(endpoint: string) returns (result: Fetched)
      modifies api
      ensures Performed(api.RequestFor("GET", endpoint, None, None), 200)
      ensures result == Decoded(Retry(api.network, |old(api.calls)|).sent)
    {
      api.log := api.log + [StepEvent];
      var sent := api.Get(endpoint, None);
      result := Finish(sent, 200);
    }

    method GetAllPosts() returns (result: Fetched)
      modifies api
      ensures Performed(api.RequestFor("GET", Posts, None, None), 200)
      ensures result == Decoded(Retry(api.network, |old(api.calls)|).sent)
    {
      result := Fetch(Posts);
    }

    method GetPostById(postId: int) returns (result: Fetched)
      modifies api
      ensures Performed(api.RequestFor("GET", Format(PostById, postId), None, None), 200)
      ensures result == Decoded(Retry(api.network, |old(api.calls)|).sent)
    {
      result := Fetch(Format(PostById, postId));
    }

    /** `create_post`: POSTs exactly title, body and userId to "/posts" and checks for 201. */
    method CreatePost(title: string, body: string, userId: int) returns (result: Fetched)
      modifies api
      ensures Performed(api.RequestFor("POST", Posts, None, Some(JObject(PostPayload(title, body, userId)))), 201)
      ensures result == Decoded(Retry(api.network, |old(api.calls)|).sent)
    {
      var postData := PostPayload(title, body, userId);
      PayloadsAreSent(0, title, body, userId);
      result := PostJson(Posts, postData, 201);
    }

    /** `update_post`: PUTs the post with its id to "/posts/{id}" and checks for 200. */
    method UpdatePost(postId: int, title: string, body: string, userId: int) returns (result: Fetched)
      modifies api
      ensures Performed(api.RequestFor("PUT", Format(PostById, postId), None,
                                       Some(JObject(UpdatePayload(postId, title, body, userId)))), 200)
      ensures result == Decoded(Retry(api.network, |old(api.calls)|).sent)
    {
      var postData := UpdatePayload(postId, title, body, userId);
      PayloadsAreSent(postId, title, body, userId);
      result := PutJson(Format(PostById, postId), postData);
    }

    /** `patch_post`: sends only the given fields, and no JSON body at all when
        there are none. */
    method PatchPost(postId: int, fields: map<string, Json>) returns (result: Fetched)
      modifies api
      ensures Performed(api.RequestFor("PATCH", Format(PostById, postId), None, JsonBodyFor(Some(fields))), 200)
      ensures |fields| == 0 ==> JsonBodyFor(Some(fields)).None?
      ensures result == Decoded(Retry(api.network, |old(api.calls)|).sent)
    {
      result := PatchJson(Format(PostById, postId), fields);
    }

    /** The POST, PUT and PATCH of a payload, as the three methods above make them. */
    method PostJson(endpoint: string, data: map<string, Json>, code: int) returns (result: Fetched)
      modifies api
      ensures Performed(api.RequestFor("POST", endpoint, None, JsonBodyFor(Some(data))), code)
      ensures result == Decoded(Retry(api.network, |old(api.calls)|).sent)
    {
      api.log := api.log + [StepEvent];
      var sent := api.Post(endpoint, Some(data), None);
      result := Finish(sent, code);
    }

    method PutJson(endpoint: string, data: map<string, Json>) returns (result: Fetched)
      modifies api
      ensures Performed(api.RequestFor("PUT", endpoint, None, JsonBodyFor(Some(data))), 200)
      ensures result == Decoded(Retry(api.network, |old(api.calls)|).sent)
    {
      api.log := api.log + [StepEvent];
      var sent := api.Put(endpoint, Some(data), None);
      result := Finish(sent, 200);
    }

    method PatchJson(endpoint: string, data: map<string, Json>) returns (result: Fetched)
      modifies api
      ensures Performed(api.RequestFor("PATCH", endpoint, None, JsonBodyFor(Some(data))), 200)
      ensures result == Decoded(Retry(api.network, |old(api.calls)|).sent)
    {
      api.log := api.log + [StepEvent];
      var sent := api.Patch(endpoint, Some(data), None);
      result := Finish(sent, 200);
    }

    /** `delete_post`: true whatever the status; only a transport error that
        outlasts the retries escapes. */
    method DeletePost(postId: int) returns (result: Result<bool, string>)
      modifies api
      ensures Performed(api.RequestFor("DELETE", Format(PostById, postId), None, None), 200)
      ensures var sent := Retry(api.network, |old(api.calls)|).sent;
              result == if sent.Raised? then Failure(sent.reason) else Success(true)
    {
      api.log := api.log + [StepEvent];
      var endpoint := Format(PostById, postId);
      var sent := api.Delete(endpoint, None);
      var _ := Finish(sent, 200);
      result := if sent.Raised? then Failure(sent.reason) else Success(true);
    }

    method GetAllUsers() returns (result: Fetched)
      modifies api
      ensures Performed(api.RequestFor("GET", Users, None, None), 200)
      ensures result == Decoded(Retry(api.network, |old(api.calls)|).sent)
    {
      result := Fetch(Users);
    }

    method GetUserById(userId: int) returns (result: Fetched)
      modifies api
      ensures Performed(api.RequestFor("GET", Format(UserById, userId), None, None), 200)
      ensures result == Decoded(Retry(api.network, |old(api.calls)|).sent)
    {
      result := Fetch(Format(UserById, userId));
    }

    method GetAllComments() returns (result: Fetched)
      modifies api
      ensures Performed(api.RequestFor("GET", Comments, None, None), 200)
      ensures result == Decoded(Retry(api.network, |old(api.calls)|).sent)
    {
      result := Fetch(Comments);
    }

    method GetCommentsByPost(postId: int) returns (result: Fetched)
      modifies api
      ensures Performed(api.RequestFor("GET", Format(CommentsByPost, postId), None, None), 200)
      ensures result == Decoded(Retry(api.network, |old(api.calls)|).sent)
    {
      result := Fetch(Format(CommentsByPost, postId));
    }

    method GetAllAlbums() returns (result: Fetched)
      modifies api
      ensures Performed(api.RequestFor("GET", Albums, None, None), 200)
      ensures result == Decoded(Retry(api.network, |old(api.calls)|).sent)
    {
      result := Fetch(Albums);
    }

    method GetAlbumsByUser(userId: int) returns (result: Fetched)
      modifies api
      ensures Performed(api.RequestFor("GET", Format(AlbumsByUser, userId), None, None), 200)
      ensures result == Decoded(Retry(api.network, |old(api.calls)|).sent)
    {
      result := Fetch(Format(AlbumsByUser, userId));
    }

    method GetAllPhotos() returns (result: Fetched)
      modifies api
      ensures Performed(api.RequestFor("GET", Photos, None, None), 200)
      ensures result == Decoded(Retry(api.network, |old(api.calls)|).sent)
    {
      result := Fetch(Photos);
    }

    method GetPhotosByAlbum(albumId: int) returns (result: Fetched)
      modifies api
      ensures Performed(api.RequestFor("GET", Format(PhotosByAlbum, albumId), None, None), 200)
      ensures result == Decoded(Retry(api.network, |old(api.calls)|).sent)
    {
      result := Fetch(Format(PhotosByAlbum, albumId));
    }

    method GetAllTodos() returns (result: Fetched)
      modifies api
      ensures Performed(api.RequestFor("GET", Todos, None, None), 200)
      ensures result == Decoded(Retry(api.network, |old(api.calls)|).sent)
    {
      result := Fetch(Todos);
    }

    method GetTodosByUser(userId: int) returns (result: Fetched)
      modifies api
      ensures Performed(api.RequestFor("GET", Format(TodosByUser, userId), None, None), 200)
      ensures result == Decoded(Retry(api.network, |old(api.calls)|).sent)
    {
      result := Fetch(Format(TodosByUser, userId));
    }
  }
}
