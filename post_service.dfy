/**
 * The post service: create with a defaulted code, lookups and listings that skip soft-deleted
 * rows, bulk status changes over a filter, bump-to-top, partial update and soft delete.
 */
module PostService {
  import opened Wrappers
  import opened Table
  import opened QueryBuilder
  import opened BaseService

  datatype Status = Draft | Published | Unpublished

  /** The label a status is bound as in an IN clause. */
  function StatusName(s: Status): string {
    match s
    case Draft => "DRAFT"
    case Published => "PUBLISHED"
    case Unpublished => "UNPUBLISHED"
  }

  function StatusNames(ss: seq<Status>): (names: seq<string>)
    ensures |names| == |ss|
    ensures forall i :: 0 <= i < |ss| ==> names[i] == StatusName(ss[i])
  {
    if ss == [] then [] else [StatusName(ss[0])] + StatusNames(ss[1..])
  }

  datatype Post = Post(
    id: nat,
    code: string,
    title: string,
    status: Status,
    categoryId: Option<nat>,
    websiteId: Option<int>,
    avatarId: Option<string>,
    createdAt: int,
    updatedAt: int,
    deletedAt: Option<int>)

  /** A `FindOptionsWhere<PostEntity>`: the columns a row must equal. */
  datatype PostWhere = PostWhere(
    id: Option<nat>,
    code: Option<string>,
    websiteId: Option<int>,
    categoryId: Option<nat>,
    status: Option<Status>)

  predicate Matches(w: PostWhere, p: Post) {
    && (w.id.Some? ==> p.id == w.id.value)
    && (w.code.Some? ==> p.code == w.code.value)
    && (w.websiteId.Some? ==> p.websiteId == w.websiteId)
    && (w.categoryId.Some? ==> p.categoryId == w.categoryId)
    && (w.status.Some? ==> p.status == w.status.value)
  }

  predicate IsLive(p: Post) {
    p.deletedAt.None?
  }

  datatype PostCreateBody = PostCreateBody(
    code: Option<string>,
    title: string,
    status: Option<Status>,
    categoryId: Option<nat>,
    websiteId: Option<int>,
    avatarId: Option<string>)

  /** The columns an update body may carry, each optional. */
  datatype PostUpdateBody = PostUpdateBody(
    code: Option<string>,
    title: Option<string>,
    status: Option<Status>,
    categoryId: Option<nat>,
    websiteId: Option<int>,
    avatarId: Option<string>)

  datatype PostListQuery = PostListQuery(
    websiteId: Option<int>,
    categoryId: Option<nat>,
    categoryIds: Option<seq<int>>,
    statuses: Option<seq<Status>>,
    page: Option<int>,
    limit: Option<int>)
  {
    function Paging(): PageQuery {
      PageQuery(page, limit)
    }
  }

  datatype PostError = MissingUser | ConstraintViolation

  /** The code a new post gets: the body's own, or the slug of its title when that is empty or absent. */
  function CreateCode(body: PostCreateBody, slugify: string -> string): (code: string)
    ensures body.code.Some? && body.code.value != "" ==> code == body.code.value
    ensures body.code.None? || body.code.value == "" ==> code == slugify(body.title)
  {
    if body.code.None? || body.code.value == "" then slugify(body.title) else body.code.value
  }

  /**
   * The row `create` saves: the body without its `status` (the column default applies instead),
   * the user's website in place of any the body names, and the defaulted code.
   */
  function NewPost(id: nat, body: PostCreateBody, user: AuthUser, slugify: string -> string,
                   defaultStatus: Status, now: int): (p: Post)
    ensures p.id == id && p.code == CreateCode(body, slugify) && p.title == body.title
    ensures p.status == defaultStatus && p.websiteId == user.websiteId
    ensures p.categoryId == body.categoryId && p.avatarId == body.avatarId
    ensures p.createdAt == now && p.updatedAt == now && IsLive(p)
  {
    Post(id, CreateCode(body, slugify), body.title, defaultStatus, body.categoryId, user.websiteId,
         body.avatarId, now, now, None)
  }

  /** The clauses `getAll` adds, in order; `websiteId` and `categoryId` only when truthy. */
  function ListPredicates(q: PostListQuery): seq<Predicate> {
    (if q.websiteId.Some? && q.websiteId.value != 0 then [Filter("post.websiteId", Num(q.websiteId.value))] else [])
    + (if q.categoryId.Some? && q.categoryId.value != 0 then [Filter("post.categoryId", Num(q.categoryId.value))] else [])
    + (if q.categoryIds.Some? then [InFilter("post.categoryId", Nums(q.categoryIds.value))] else [])
    + (if q.statuses.Some? then [InFilter("post.status", Texts(StatusNames(q.statuses.value)))] else [])
  }

  /** The rows reads can see: those not soft-deleted. */
  function Live(t: map<nat, Post>): map<nat, Post> {
    Restrict(t, IsLive)
  }

  /** The response `getAll` gives: every visible match, never paged, with the query's page fields echoed. */
  function ListResponseOf(q: PostListQuery, t: map<nat, Post>, bound: nat, holds: (Predicate, Post) -> bool)
    : GetAllResponse<Post>
    requires KeysBelow(t, bound)
  {
    var result := GetManyAndCount(BuiltQuery(ListPredicates(q), None, None, None), Rows(Live(t), bound), holds);
    GenerateGetAllResponse(result.0, result.1, q.Paging())
  }

  /** Every row matching `w` gets status `s`; nothing else changes. */
  function WithStatus(t: map<nat, Post>, w: PostWhere, s: Status): (t': map<nat, Post>)
    ensures t'.Keys == t.Keys
    ensures forall k :: k in t && Matches(w, t[k]) ==> t'[k] == t[k].(status := s)
    ensures forall k :: k in t && !Matches(w, t[k]) ==> t'[k] == t[k]
  {
    map k | k in t :: if Matches(w, t[k]) then t[k].(status := s) else t[k]
  }

  /** Every row matching `w` is marked deleted at `now`; nothing else changes. */
  function SoftDeleted(t: map<nat, Post>, w: PostWhere, now: int): (t': map<nat, Post>)
    ensures t'.Keys == t.Keys
    ensures forall k :: k in t && Matches(w, t[k]) ==> t'[k] == t[k].(deletedAt := Some(now))
    ensures forall k :: k in t && !Matches(w, t[k]) ==> t'[k] == t[k]
  {
    map k | k in t :: if Matches(w, t[k]) then t[k].(deletedAt := Some(now)) else t[k]
  }

  /** The columns of an update body that are present overwrite the row's; the others stay. */
  function Updated(p: Post, body: PostUpdateBody): (r: Post)
    ensures r.id == p.id && r.createdAt == p.createdAt && r.updatedAt == p.updatedAt && r.deletedAt == p.deletedAt
    ensures r.code == body.code.GetOr(p.code) && r.title == body.title.GetOr(p.title)
    ensures r.status == body.status.GetOr(p.status)
    ensures r.categoryId == (if body.categoryId.Some? then body.categoryId else p.categoryId)
    ensures r.websiteId == (if body.websiteId.Some? then body.websiteId else p.websiteId)
    ensures r.avatarId == (if body.avatarId.Some? then body.avatarId else p.avatarId)
  {
    p.(code := body.code.GetOr(p.code), title := body.title.GetOr(p.title),
       status := body.status.GetOr(p.status),
       categoryId := if body.categoryId.Some? then body.categoryId else p.categoryId,
       websiteId := if body.websiteId.Some? then body.websiteId else p.websiteId,
       avatarId := if body.avatarId.Some? then body.avatarId else p.avatarId)
  }

  /** Publishing (or unpublishing) twice over the same filter is the same as once. */
  lemma WithStatusIdempotent(t: map<nat, Post>, w: PostWhere, s: Status)
    ensures WithStatus(WithStatus(t, w, s), w, s) == WithStatus(t, w, s)
  {
    var once := WithStatus(t, w, s);
    var twice := WithStatus(once, w, s);
    forall k | k in t ensures twice[k] == once[k] {
      if !Matches(w, t[k]) {
        assert once[k] == t[k];
      }
    }
  }

  /** A soft delete keeps every row, and every row's status. */
  lemma SoftDeleteKeepsStatus(t: map<nat, Post>, w: PostWhere, now: int)
    ensures SoftDeleted(t, w, now).Keys == t.Keys
    ensures forall k :: k in t ==> SoftDeleted(t, w, now)[k].status == t[k].status
  {
  }

  /** After a soft delete, no read can see a row the filter matches. */
  lemma SoftDeleteHidesMatches(t: map<nat, Post>, w: PostWhere, now: int)
    ensures forall k :: k in Live(SoftDeleted(t, w, now)) ==> !Matches(w, Live(SoftDeleted(t, w, now))[k])
  {
  }

  /**
   * `getAll` never paginates: its items are every visible row satisfying the clauses, so their
   * number is the reported total, whatever `page` and `limit` the query carries.
   */
  lemma {:induction false} ListIsUnpaged(q: PostListQuery, t: map<nat, Post>, bound: nat, holds: (Predicate, Post) -> bool)
    requires KeysBelow(t, bound)
    ensures ListResponseOf(q, t, bound, holds).items == Matching(Rows(Live(t), bound), ListPredicates(q), holds)
    ensures |ListResponseOf(q, t, bound, holds).items| == ListResponseOf(q, t, bound, holds).meta.total
  {
    CountIgnoresPaging(BuiltQuery(ListPredicates(q), None, None, None), Rows(Live(t), bound), holds);
  }

  /** The website and category clauses appear exactly when the fields are truthy; the IN clauses when present. */
  lemma ListClausesFollowQuery(q: PostListQuery, n: int, ns: seq<int>, names: seq<string>)
    ensures Filter("post.websiteId", Num(n)) in ListPredicates(q) <==> q.websiteId == Some(n) && n != 0
    ensures Filter("post.categoryId", Num(n)) in ListPredicates(q) <==> q.categoryId.Some? && q.categoryId.value == n && n != 0
    ensures InFilter("post.categoryId", Nums(ns)) in ListPredicates(q) <==> q.categoryIds == Some(ns)
    ensures (exists p :: p in ListPredicates(q) && p.InFilter? && p.column == "post.status") <==> q.statuses.Some?
  {
    var preds := ListPredicates(q);
    if q.statuses.Some? {
      assert InFilter("post.status", Texts(StatusNames(q.statuses.value))) in preds;
    }
  }

  class PostService {
    var posts: map<nat, Post>
    var nextId: nat
    const slugify: string -> string
    const holds: (Predicate, Post) -> bool
    /** The status column's default, which a new post gets. */
    const defaultStatus: Status

    ghost predicate Valid()
      reads this
    {
      && KeysBelow(posts, nextId)
      && (forall k :: k in posts ==> posts[k].id == k)
      && UniqueBy(posts, (r: Post) => r.code)
    }

    constructor (slugify: string -> string, holds: (Predicate, Post) -> bool, defaultStatus: Status)
      ensures Valid() && posts == map[]
      ensures this.slugify == slugify && this.holds == holds && this.defaultStatus == defaultStatus
    {
      posts, nextId := map[], 1;
      this.slugify, this.holds, this.defaultStatus := slugify, holds, defaultStatus;
    }

    /**
     * `create`: fails reading the website of a missing user, or on a code already in use;
     * otherwise saves the new row under the next id.
     */
    method Create(body: PostCreateBody, user: Option<AuthUser>, now: int) returns (r: Result<Post, PostError>)
      requires Valid()
      modifies this
      ensures Valid()
      ensures user.None? ==> r == Err(MissingUser) && posts == old(posts) && nextId == old(nextId)
      ensures user.Some? && (exists k :: k in old(posts) && old(posts)[k].code == CreateCode(body, slugify)) ==>
        r == Err(ConstraintViolation) && posts == old(posts) && nextId == old(nextId)
      ensures user.Some? && !(exists k :: k in old(posts) && old(posts)[k].code == CreateCode(body, slugify)) ==>
        && r == Ok(NewPost(old(nextId), body, user.value, slugify, defaultStatus, now))
        && posts == old(posts)[old(nextId) := r.value]
        && nextId == old(nextId) + 1
    {
      if user.None? {
        r := Err(MissingUser);
        return;
      }
      var code := CreateCode(body, slugify);
      var clash := First(posts, nextId, (p: Post) => p.code == code);
      if clash.Some? {
        r := Err(ConstraintViolation);
        return;
      }
      var post := NewPost(nextId, body, user.value, slugify, defaultStatus, now);
      posts := posts[nextId := post];
      nextId := nextId + 1;
      r := Ok(post);
    }

    /** `get`: the first visible row matching `where`, or nothing; a miss is not an error. */
    method Get(where: PostWhere) returns (r: Option<Post>)
      requires Valid()
      ensures r.None? <==> forall k :: k in posts && IsLive(posts[k]) ==> !Matches(where, posts[k])
      ensures r.Some? ==> r.value.id in posts && posts[r.value.id] == r.value && IsLive(r.value) && Matches(where, r.value)
    {
      var first := First(posts, nextId, (p: Post) => IsLive(p) && Matches(where, p));
      if first.Some? {
        r := Some(posts[first.value]);
      } else {
        r := None;
      }
    }

    /** `getAll`: adds the clauses for the fields present, then lists every visible match. */
    method GetAll(query: PostListQuery) returns (response: GetAllResponse<Post>)
      requires Valid()
      ensures response == ListResponseOf(query, posts, nextId, holds)
    {
      var qb := new SelectQueryBuilder("post");
      if query.websiteId.Some? && query.websiteId.value != 0 {
        qb := SetFilter(qb, Num(query.websiteId.value), "post.websiteId");
      }
      if query.categoryId.Some? && query.categoryId.value != 0 {
        qb := SetFilter(qb, Num(query.categoryId.value), "post.categoryId");
      }
      if query.categoryIds.Some? {
        qb := SetInFilter(qb, Nums(query.categoryIds.value), "post.categoryId");
      }
      if query.statuses.Some? {
        qb := SetInFilter(qb, Texts(StatusNames(query.statuses.value)), "post.status");
      }
      var built := qb.Snapshot();
      assert built == BuiltQuery(ListPredicates(query), None, None, None);
      var result := GetManyAndCount(built, Rows(Live(posts), nextId), holds);
      response := GenerateGetAllResponse(result.0, result.1, query.Paging());
    }

    /** `unPublish`: every row matching `where` becomes UNPUBLISHED; returns how many matched. */
    method UnPublish(where: PostWhere) returns (affected: nat)
      requires Valid()
      modifies this
      ensures Valid() && nextId == old(nextId)
      ensures posts == WithStatus(old(posts), where, Unpublished)
      ensures affected == |Restrict(old(posts), (p: Post) => Matches(where, p))|
    {
      affected := |Restrict(posts, (p: Post) => Matches(where, p))|;
      posts := WithStatus(posts, where, Unpublished);
    }

    /** `publish`: every row matching `where` becomes PUBLISHED; returns how many matched. */
    method Publish(where: PostWhere) returns (affected: nat)
      requires Valid()
      modifies this
      ensures Valid() && nextId == old(nextId)
      ensures posts == WithStatus(old(posts), where, Published)
      ensures affected == |Restrict(old(posts), (p: Post) => Matches(where, p))|
    {
      affected := |Restrict(posts, (p: Post) => Matches(where, p))|;
      posts := WithStatus(posts, where, Published);
    }

    /** `upTopById`: only the `updatedAt` of the row with that id changes, to `now`. */
    method UpTopById(id: nat, now: int)
      requires Valid()
      modifies this
      ensures Valid() && nextId == old(nextId)
      ensures posts == if id in old(posts) then old(posts)[id := old(posts)[id].(updatedAt := now)] else old(posts)
    {
      if id in posts {
        posts := posts[id := posts[id].(updatedAt := now)];
      }
    }

    /** `updateById`: the present columns of `body` overwrite the row's; a code in use elsewhere is refused. */
    method UpdateById(id: nat, body: PostUpdateBody) returns (r: Result<nat, PostError>)
      requires Valid()
      modifies this
      ensures Valid() && nextId == old(nextId)
      ensures id !in old(posts) ==> r == Ok(0) && posts == old(posts)
      ensures id in old(posts) && body.code.Some? &&
              (exists k :: k in old(posts) && k != id && old(posts)[k].code == body.code.value) ==>
        r == Err(ConstraintViolation) && posts == old(posts)
      ensures id in old(posts) &&
              !(body.code.Some? && exists k :: k in old(posts) && k != id && old(posts)[k].code == body.code.value) ==>
        r == Ok(1) && posts == old(posts)[id := Updated(old(posts)[id], body)]
    {
      if id !in posts {
        r := Ok(0);
        return;
      }
      if body.code.Some? {
        var code := body.code.value;
        var clash := First(posts, nextId, (p: Post) => p.id != id && p.code == code);
        if clash.Some? {
          r := Err(ConstraintViolation);
          return;
        }
      }
      posts := posts[id := Updated(posts[id], body)];
      r := Ok(1);
    }

    /** `delete`: a soft delete; matching rows stay, marked deleted at `now`. */
    method Delete(where: PostWhere, now: int) returns (affected: nat)
      requires Valid()
      modifies this
      ensures Valid() && nextId == old(nextId)
      ensures posts == SoftDeleted(old(posts), where, now)
      ensures affected == |Restrict(old(posts), (p: Post) => Matches(where, p))|
    {
      affected := |Restrict(posts, (p: Post) => Matches(where, p))|;
      posts := SoftDeleted(posts, where, now);
    }
  }
}
