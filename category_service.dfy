/**
 * The category service: list queries composed from optional filters, a remapped sort key,
 * pagination and search; lookup that fails with CATEGORY_NOT_FOUND; and create, update and
 * delete on the category table, each mirrored to the category search index.
 */
module CategoryService {
  import opened Wrappers
  import opened Table
  import opened QueryBuilder
  import opened BaseService
  import opened Decimal

  datatype Category = Category(
    id: nat,
    code: string,
    name: string,
    parentId: Option<nat>,
    categoryGroupId: Option<nat>,
    websiteId: Option<int>,
    thumbnailId: Option<string>)

  /** A `FindOptionsWhere<CategoryEntity>`: the columns a row must equal. */
  datatype CategoryWhere = CategoryWhere(id: Option<nat>, code: Option<string>)

  predicate Matches(w: CategoryWhere, c: Category) {
    && (w.id.Some? ==> c.id == w.id.value)
    && (w.code.Some? ==> c.code == w.code.value)
  }

  /** What the `parentId` field of a list query can hold. */
  datatype ParentParam = Undefined | NullId | NotANumber | Number(n: int)

  /**
   * JavaScript's global `isNaN` on those values: `undefined` and a value that does not convert to a
   * number (`NotANumber`) are NaN; `null` converts to 0, and a number is not NaN.
   */
  predicate IsNaN(p: ParentParam) {
    p.Undefined? || p.NotANumber?
  }

  datatype CategoryListQuery = CategoryListQuery(
    websiteId: Option<int>,
    categoryGroupCodes: Option<seq<string>>,
    parentId: ParentParam,
    parentCode: Option<string>,
    orderBy: Option<string>,
    orderDirection: Option<Direction>,
    page: Option<int>,
    limit: Option<int>,
    searchValue: Option<string>,
    searchBy: Option<string>)
  {
    function Paging(): PageQuery {
      PageQuery(page, limit)
    }
  }

  const WebsiteCondition := "website.id = :websiteId"
  const GroupCondition := "categoryGroup.code IN (:...categoryGroup)"

  /** The clause for the `parentId` field: none when undefined, `IsNull()` for NaN, equality otherwise. */
  function ParentClause(p: ParentParam): seq<Predicate> {
    if p.Undefined? then []
    else if IsNaN(p) then [ColumnIsNull("parentId")]
    else [ColumnEquals("parentId", if p.NullId? then QueryBuilder.Null else Num(p.n))]
  }

  /** The filter clauses `getAll` adds, in order; a falsy or absent field adds none. */
  function ListPredicates(q: CategoryListQuery): seq<Predicate> {
    WebsiteClause(q) + GroupClause(q) + ParentClause(q.parentId) + ParentCodeClause(q)
  }

  function WebsiteClause(q: CategoryListQuery): seq<Predicate> {
    if q.websiteId.Some? && q.websiteId.value != 0 then [Sql(WebsiteCondition, Num(q.websiteId.value))] else []
  }

  function GroupClause(q: CategoryListQuery): seq<Predicate> {
    if q.categoryGroupCodes.Some? then [Sql(GroupCondition, Texts(q.categoryGroupCodes.value))] else []
  }

  function ParentCodeClause(q: CategoryListQuery): seq<Predicate> {
    if q.parentCode.Some? && q.parentCode.value != "" then [Filter("parent.code", Text(q.parentCode.value))] else []
  }

  /** The column `getAll` sorts by. */
  function SortKey(orderBy: Option<string>): string {
    if orderBy == Some("categoryGroupName") then "categoryGroup.name"
    else "category." + orderBy.GetOr("createdAt")
  }

  /** Everything `getAll` records on its builder. */
  function ListQuery(q: CategoryListQuery, parse: PageQuery -> ListParams): BuiltQuery {
    var params := parse(q.Paging());
    BuiltQuery(
      ListPredicates(q) + [Search("category.code", q.searchValue, q.searchBy)],
      Some(Order(SortKey(q.orderBy), q.orderDirection)),
      Some(params.offset),
      if params.limit > 0 then Some(params.limit) else None)
  }

  /** The query `getRoots` lists with: the same, with `parentId` set to `null`. */
  function RootsQuery(q: CategoryListQuery): CategoryListQuery {
    q.(parentId := NullId)
  }

  /** The response `getAll` gives for `q` against table `t`: the selected page, the count of all matches. */
  function ListResponseOf(q: CategoryListQuery, t: map<nat, Category>, bound: nat,
                          parse: PageQuery -> ListParams, holds: (Predicate, Category) -> bool): GetAllResponse<Category>
    requires KeysBelow(t, bound)
  {
    var result := GetManyAndCount(ListQuery(q, parse), Rows(t, bound), holds);
    GenerateGetAllResponse(result.0, result.1, q.Paging())
  }

  /** The website clause is added exactly when `websiteId` is truthy (present and not 0). */
  lemma WebsiteClauseIffTruthy(q: CategoryListQuery, w: int)
    ensures Sql(WebsiteCondition, Num(w)) in ListPredicates(q) <==> q.websiteId == Some(w) && w != 0
  {
    assert Sql(WebsiteCondition, Num(w)) !in GroupClause(q) + ParentClause(q.parentId) + ParentCodeClause(q);
  }

  /** The category-group clause is added exactly when `categoryGroupCodes` is present, even as an empty array. */
  lemma GroupClauseIffPresent(q: CategoryListQuery, codes: seq<string>)
    ensures Sql(GroupCondition, Texts(codes)) in ListPredicates(q) <==> q.categoryGroupCodes == Some(codes)
  {
    assert WebsiteCondition != GroupCondition by {
      assert WebsiteCondition[0] != GroupCondition[0];
    }
  }

  /** The parent-code clause is added exactly when `parentCode` is a non-empty string. */
  lemma ParentCodeClauseIffTruthy(q: CategoryListQuery, code: string)
    ensures Filter("parent.code", Text(code)) in ListPredicates(q) <==> q.parentCode == Some(code) && code != ""
  {
  }

  /**
   * `parentId`: no clause when undefined; `IsNull()` exactly when `isNaN` holds of it;
   * otherwise equality with the value itself (`null` included).
   */
  lemma ParentClauseCases(q: CategoryListQuery, v: Value)
    ensures ColumnIsNull("parentId") in ListPredicates(q) <==> q.parentId.NotANumber?
    ensures ColumnEquals("parentId", v) in ListPredicates(q) <==>
      (q.parentId.NullId? && v == QueryBuilder.Null) || (q.parentId.Number? && v == Num(q.parentId.n))
  {
    var preds := ListPredicates(q);
    assert preds == WebsiteClause(q) + GroupClause(q) + ParentClause(q.parentId) + ParentCodeClause(q);
  }

  /** A query with every filter field absent adds no clause at all. */
  lemma AbsentFieldsAddNoClause(q: CategoryListQuery, parse: PageQuery -> ListParams)
    requires q.websiteId.None? && q.categoryGroupCodes.None? && q.parentId.Undefined? && q.parentCode.None?
    ensures ListPredicates(q) == []
    ensures ListQuery(q, parse).predicates == [Search("category.code", q.searchValue, q.searchBy)]
  {
  }

  /**
   * The sort key: `categoryGroupName` sorts by the joined group's name, any other field by the
   * category column of that name, and no field by `category.createdAt`.
   */
  lemma SortKeyRemap(orderBy: Option<string>)
    ensures SortKey(orderBy) == "categoryGroup.name" <==> orderBy == Some("categoryGroupName")
    ensures orderBy.None? ==> SortKey(orderBy) == "category.createdAt"
    ensures orderBy.Some? && orderBy.value != "categoryGroupName" ==> SortKey(orderBy) == "category." + orderBy.value
  {
    if orderBy != Some("categoryGroupName") {
      var key := SortKey(orderBy);
      assert key[8] == '.';
      assert "categoryGroup.name"[8] == 'G';
    }
  }

  /**
   * `getRoots` compares `parentId` with `null` by equality: `isNaN(null)` is false, so the
   * `IsNull()` clause is never used; every other part of the list query is that of `q`.
   */
  lemma RootsCompareParentWithNull(q: CategoryListQuery, parse: PageQuery -> ListParams)
    ensures !IsNaN(RootsQuery(q).parentId)
    ensures ColumnEquals("parentId", QueryBuilder.Null) in ListPredicates(RootsQuery(q))
    ensures ColumnIsNull("parentId") !in ListPredicates(RootsQuery(q))
    ensures ListPredicates(RootsQuery(q))
      == WebsiteClause(q) + GroupClause(q) + [ColumnEquals("parentId", QueryBuilder.Null)] + ParentCodeClause(q)
    ensures ListQuery(RootsQuery(q), parse).(predicates := []) == ListQuery(q, parse).(predicates := [])
  {
    ParentClauseCases(RootsQuery(q), QueryBuilder.Null);
  }

  /**
   * Where the database reads equality with `null` as "has no parent", every category
   * `getRoots` lists is a root.
   */
  lemma RootsHaveNoParent(q: CategoryListQuery, t: map<nat, Category>, bound: nat,
                          parse: PageQuery -> ListParams, holds: (Predicate, Category) -> bool)
    requires KeysBelow(t, bound)
    requires forall c :: holds(ColumnEquals("parentId", QueryBuilder.Null), c) ==> c.parentId.None?
    ensures forall c :: c in ListResponseOf(RootsQuery(q), t, bound, parse, holds).items ==> c.parentId.None?
  {
    var built := ListQuery(RootsQuery(q), parse);
    var m := Matching(Rows(t, bound), built.predicates, holds);
    var w := Window(m, built.skip, built.take);
    assert ListResponseOf(RootsQuery(q), t, bound, parse, holds).items == w;
    RootsCompareParentWithNull(q, parse);
    assert ColumnEquals("parentId", QueryBuilder.Null) in built.predicates;
    forall c | c in w ensures c.parentId.None? {
      var i :| 0 <= i < |w| && w[i] == c;
      var from := if built.skip.GetOr(0) <= |m| then built.skip.GetOr(0) else |m|;
      assert c == m[from + i];
      assert SatisfiesAll(built.predicates, c, holds);
    }
  }

  lemma AppendAssoc<T>(a: seq<T>, b: seq<T>, c: seq<T>)
    ensures a + (b + c) == (a + b) + c
  {
  }

  /** The filter steps of `getAll`, applied in order to its builder. */
  method ApplyListFilters(qb: SelectQueryBuilder, query: CategoryListQuery) returns (r: SelectQueryBuilder)
    modifies qb
    ensures r == qb
    ensures qb.predicates == old(qb.predicates) + ListPredicates(query)
    ensures qb.order == old(qb.order) && qb.skip == old(qb.skip) && qb.take == old(qb.take)
  {
    ghost var p0 := qb.predicates;
    if query.websiteId.Some? && query.websiteId.value != 0 {
      qb.AndWhere(Sql(WebsiteCondition, Num(query.websiteId.value)));
    }
    assert qb.predicates == p0 + WebsiteClause(query);
    ghost var p1 := qb.predicates;
    if query.categoryGroupCodes.Some? {
      qb.AndWhere(Sql(GroupCondition, Texts(query.categoryGroupCodes.value)));
    }
    assert qb.predicates == p1 + GroupClause(query);
    ghost var p2 := qb.predicates;
    if !query.parentId.Undefined? {
      qb.AndWhere(
        if IsNaN(query.parentId) then ColumnIsNull("parentId")
        else ColumnEquals("parentId", if query.parentId.NullId? then QueryBuilder.Null else Num(query.parentId.n)));
    }
    assert qb.predicates == p2 + ParentClause(query.parentId);
    ghost var p3 := qb.predicates;
    r := qb;
    if query.parentCode.Some? && query.parentCode.value != "" {
      r := SetFilter(qb, Text(query.parentCode.value), "parent.code");
    }
    assert qb.predicates == p3 + ParentCodeClause(query);
    ghost var w, g, pc, c := WebsiteClause(query), GroupClause(query), ParentClause(query.parentId), ParentCodeClause(query);
    AppendAssoc(p0, w, g);
    AppendAssoc(p0, w + g, pc);
    AppendAssoc(p0, w + g + pc, c);
  }

  /**
   * How the service fails: no matching row, a unique constraint, or reading the group name of
   * a category that has no group (a TypeError, thrown after the row was written).
   */
  datatype CategoryError = NotFound(message: string) | ConstraintViolation | MissingGroup

  /** The joined category group exists, so `category.categoryGroup.name` can be read. */
  predicate HasGroup(c: Category) {
    c.categoryGroupId.Some?
  }

  const CategoryNotFound := "CATEGORY_NOT_FOUND"

  /** One call to the category search index. */
  datatype IndexCall = IndexSave(objectId: string, name: string) | IndexUpdate(objectId: string, name: string) | IndexRemove(objectId: string)

  /**
   * The object ids the search index holds after `log`, reading a save or an update as
   * writing its object and a removal as deleting it.
   */
  function IndexedKeys(log: seq<IndexCall>): set<string> {
    if log == [] then {}
    else
      var before := IndexedKeys(log[..|log| - 1]);
      match log[|log| - 1]
      case IndexSave(o, _) => before + {o}
      case IndexUpdate(o, _) => before + {o}
      case IndexRemove(o) => before - {o}
  }

  /**
   * As written, `create` indexes a category under its code and `delete` removes the object
   * named by its id: unless the code is the id's decimal string, the entry outlives the row.
   */
  lemma DeleteByIdStrandsCodeEntry(log: seq<IndexCall>, c: Category)
    requires c.code != NatToString(c.id)
    ensures c.code in IndexedKeys(log + [IndexSave(c.code, c.name)] + [IndexRemove(NatToString(c.id))])
  {
    var saved := log + [IndexSave(c.code, c.name)];
    assert (saved + [IndexRemove(NatToString(c.id))])[..|saved|] == saved;
    assert saved[..|log|] == log;
  }

  /** A category with code "apartment" and id 7: deleting it leaves "apartment" in the index. */
  lemma DeleteByIdStrandsEntryExample()
    ensures "apartment" in IndexedKeys([IndexSave("apartment", "Apartment"), IndexRemove(NatToString(7))])
  {
    assert NatToString(7) == "7";
    DeleteByIdStrandsCodeEntry([], Category(7, "apartment", "Apartment", None, None, None, None));
    assert [] + [IndexSave("apartment", "Apartment")] + [IndexRemove(NatToString(7))]
      == [IndexSave("apartment", "Apartment"), IndexRemove(NatToString(7))];
  }

  /** Keyed by code throughout, creating and then deleting a category leaves the index as it was. */
  lemma CodeKeyedDeleteRestoresIndex(log: seq<IndexCall>, code: string, name: string)
    requires code !in IndexedKeys(log)
    ensures IndexedKeys(log + [IndexSave(code, name)] + [IndexRemove(code)]) == IndexedKeys(log)
  {
    var saved := log + [IndexSave(code, name)];
    assert (saved + [IndexRemove(code)])[..|saved|] == saved;
    assert saved[..|log|] == log;
  }

  /** Keyed by code throughout, an update rewrites the object the category was created under. */
  lemma CodeKeyedUpdateKeepsKeys(log: seq<IndexCall>, code: string, name: string, newName: string)
    ensures IndexedKeys(log + [IndexSave(code, name)] + [IndexUpdate(code, newName)])
      == IndexedKeys(log + [IndexSave(code, name)])
  {
    var saved := log + [IndexSave(code, name)];
    assert (saved + [IndexUpdate(code, newName)])[..|saved|] == saved;
    assert saved[..|log|] == log;
  }

  datatype CategoryCreateBody = CategoryCreateBody(
    code: Option<string>,
    name: string,
    parentId: Option<nat>,
    categoryGroupId: Option<nat>,
    websiteId: Option<int>,
    thumbnailId: Option<string>)

  /** An update body: any column may be present; only three of them are applied. */
  datatype CategoryUpdateBody = CategoryUpdateBody(
    code: Option<string>,
    name: Option<string>,
    parentId: Option<nat>,
    categoryGroupId: Option<nat>,
    websiteId: Option<int>,
    thumbnailId: Option<string>)

  /** The code a new category gets: the body's own, or the slug of its name when that is empty or absent. */
  function CreateCode(body: CategoryCreateBody, slugify: string -> string): (code: string)
    ensures body.code.Some? && body.code.value != "" ==> code == body.code.value
    ensures body.code.None? || body.code.value == "" ==> code == slugify(body.name)
  {
    if body.code.None? || body.code.value == "" then slugify(body.name) else body.code.value
  }

  /** The row `create` saves under `id`. */
  function NewCategory(id: nat, body: CategoryCreateBody, user: AuthUser, slugify: string -> string): (c: Category)
    ensures c.id == id && c.code == CreateCode(body, slugify)
    ensures body.websiteId.Some? ==> c.websiteId == body.websiteId
    ensures body.websiteId.None? ==> c.websiteId == user.websiteId
    ensures c.name == body.name && c.parentId == body.parentId
    ensures c.categoryGroupId == body.categoryGroupId && c.thumbnailId == body.thumbnailId
  {
    Category(id, CreateCode(body, slugify), body.name, body.parentId, body.categoryGroupId,
             if body.websiteId.Some? then body.websiteId else user.websiteId, body.thumbnailId)
  }

  /** `pick(body, ['name', 'categoryGroupId', 'thumbnailId'])` applied to a row. */
  function Patched(c: Category, body: CategoryUpdateBody): (r: Category)
    ensures r.id == c.id && r.code == c.code && r.parentId == c.parentId && r.websiteId == c.websiteId
    ensures r.name == (if body.name.Some? then body.name.value else c.name)
    ensures r.categoryGroupId == (if body.categoryGroupId.Some? then body.categoryGroupId else c.categoryGroupId)
    ensures r.thumbnailId == (if body.thumbnailId.Some? then body.thumbnailId else c.thumbnailId)
  {
    c.(name := body.name.GetOr(c.name),
       categoryGroupId := if body.categoryGroupId.Some? then body.categoryGroupId else c.categoryGroupId,
       thumbnailId := if body.thumbnailId.Some? then body.thumbnailId else c.thumbnailId)
  }

  class CategoryService {
    var categories: map<nat, Category>
    var nextId: nat
    /** The calls made to the search index, oldest first. */
    var searchIndex: seq<IndexCall>
    const slugify: string -> string
    const parse: PageQuery -> ListParams
    const holds: (Predicate, Category) -> bool

    ghost predicate Valid()
      reads this
    {
      && KeysBelow(categories, nextId)
      && (forall k :: k in categories ==> categories[k].id == k)
      && UniqueBy(categories, (r: Category) => r.code)
    }

    constructor (slugify: string -> string, parse: PageQuery -> ListParams, holds: (Predicate, Category) -> bool)
      ensures Valid() && categories == map[] && searchIndex == []
      ensures this.slugify == slugify && this.parse == parse && this.holds == holds
    {
      categories, nextId, searchIndex := map[], 1, [];
      this.slugify, this.parse, this.holds := slugify, parse, holds;
    }

    /** The response `getAll` gives for `q` against the current table. */
    function ListResponse(q: CategoryListQuery): GetAllResponse<Category>
      reads this
      requires KeysBelow(categories, nextId)
    {
      ListResponseOf(q, categories, nextId, parse, holds)
    }

    /** `get`: the first row matching `where`, or CATEGORY_NOT_FOUND when none does. */
    method Get(where: CategoryWhere) returns (r: Result<Category, CategoryError>)
      requires Valid()
      ensures r.Err? <==> forall k :: k in categories ==> !Matches(where, categories[k])
      ensures r.Err? ==> r.error == NotFound(CategoryNotFound)
      ensures r.Ok? ==> r.value.id in categories && categories[r.value.id] == r.value && Matches(where, r.value)
    {
      var first := First(categories, nextId, (c: Category) => Matches(where, c));
      if first.Some? {
        r := Ok(categories[first.value]);
      } else {
        r := Err(NotFound(CategoryNotFound));
      }
    }

    /** `getAll`: composes the list query step by step on a fresh builder, runs it and wraps the page. */
    method GetAll(query: CategoryListQuery) returns (response: GetAllResponse<Category>)
      requires Valid()
      ensures response == ListResponse(query)
    {
      var qb := new SelectQueryBuilder("category");
      qb := ApplyListFilters(qb, query);
      qb.OrderBy(SortKey(query.orderBy), query.orderDirection);
      qb := SetPagination(qb, query.Paging(), parse);
      qb := SetAlgoliaSearch(qb, query.searchValue, query.searchBy, "category.code");
      var built := qb.Snapshot();
      assert built == ListQuery(query, parse);
      assert categories == old(categories) && nextId == old(nextId);
      var result := GetManyAndCount(built, Rows(categories, nextId), holds);
      response := GenerateGetAllResponse(result.0, result.1, query.Paging());
      assert response == ListResponseOf(query, categories, nextId, parse, holds);
    }

    /** `getRoots`: `getAll` with `parentId` forced to `null`. */
    method GetRoots(query: CategoryListQuery) returns (response: GetAllResponse<Category>)
      requires Valid()
      ensures response == ListResponse(RootsQuery(query))
    {
      response := GetAll(query.(parentId := NullId));
    }

    /**
     * `create`: saves a row with the defaulted code and website, reads it back by code and
     * indexes it under that code. A code already in use violates the unique constraint; a row
     * without a group stays saved, but reading its group name throws before the index call.
     */
    method Create(body: CategoryCreateBody, user: AuthUser) returns (r: Result<Category, CategoryError>)
      requires Valid()
      modifies this
      ensures Valid()
      ensures var code := CreateCode(body, slugify);
        if exists k :: k in old(categories) && old(categories)[k].code == code then
          && r == Err(ConstraintViolation)
          && categories == old(categories) && nextId == old(nextId) && searchIndex == old(searchIndex)
        else
          var record := NewCategory(old(nextId), body, user, slugify);
          && categories == old(categories)[old(nextId) := record]
          && nextId == old(nextId) + 1
          && (HasGroup(record) ==> r == Ok(record) && searchIndex == old(searchIndex) + [IndexSave(code, body.name)])
          && (!HasGroup(record) ==> r == Err(MissingGroup) && searchIndex == old(searchIndex))
    {
      var code := CreateCode(body, slugify);
      var clash := First(categories, nextId, (c: Category) => c.code == code);
      if clash.Some? {
        r := Err(ConstraintViolation);
        return;
      }
      var record := NewCategory(nextId, body, user, slugify);
      categories := categories[nextId := record];
      nextId := nextId + 1;
      assert categories[record.id] == record;
      r := Get(CategoryWhere(None, Some(record.code)));
      assert r.Ok?;
      assert r.value == record by {
        assert categories[r.value.id].code == categories[record.id].code;
      }
      if r.Ok? {
        if !HasGroup(r.value) {
          r := Err(MissingGroup);
          return;
        }
        searchIndex := searchIndex + [IndexSave(r.value.code, r.value.name)];
      }
    }

    /**
     * `update`: applies the whitelisted columns of `body` to the row with that id, reads it back
     * and re-indexes it under the id's decimal string. When the patched row has no group, reading
     * its group name throws after the patch and before the index call.
     */
    method Update(id: nat, body: CategoryUpdateBody) returns (r: Result<Category, CategoryError>)
      requires Valid()
      modifies this
      ensures Valid() && nextId == old(nextId)
      ensures id !in old(categories) ==>
        r == Err(NotFound(CategoryNotFound)) && categories == old(categories) && searchIndex == old(searchIndex)
      ensures id in old(categories) ==>
        var patched := Patched(old(categories)[id], body);
        && categories == old(categories)[id := patched]
        && (HasGroup(patched) ==> r == Ok(patched) && searchIndex == old(searchIndex) + [IndexUpdate(NatToString(id), patched.name)])
        && (!HasGroup(patched) ==> r == Err(MissingGroup) && searchIndex == old(searchIndex))
    {
      if id in categories {
        categories := categories[id := Patched(categories[id], body)];
      }
      r := Get(CategoryWhere(Some(id), None));
      assert r.Ok? ==> r.value.id == id;
      assert id in categories ==> Matches(CategoryWhere(Some(id), None), categories[id]);
      if r.Ok? {
        if !HasGroup(r.value) {
          r := Err(MissingGroup);
          return;
        }
        searchIndex := searchIndex + [IndexUpdate(NatToString(r.value.id), r.value.name)];
      }
    }

    /** `update` with the index addressed by the category's code, as `create` and the search filter use it. */
    method UpdateCodeKeyed(id: nat, body: CategoryUpdateBody) returns (r: Result<Category, CategoryError>)
      requires Valid()
      modifies this
      ensures Valid() && nextId == old(nextId)
      ensures id !in old(categories) ==>
        r == Err(NotFound(CategoryNotFound)) && categories == old(categories) && searchIndex == old(searchIndex)
      ensures id in old(categories) ==>
        var patched := Patched(old(categories)[id], body);
        && categories == old(categories)[id := patched]
        && (HasGroup(patched) ==> r == Ok(patched) && searchIndex == old(searchIndex) + [IndexUpdate(patched.code, patched.name)])
        && (!HasGroup(patched) ==> r == Err(MissingGroup) && searchIndex == old(searchIndex))
    {
      if id in categories {
        categories := categories[id := Patched(categories[id], body)];
      }
      r := Get(CategoryWhere(Some(id), None));
      assert r.Ok? ==> r.value.id == id;
      assert id in categories ==> Matches(CategoryWhere(Some(id), None), categories[id]);
      if r.Ok? {
        if !HasGroup(r.value) {
          r := Err(MissingGroup);
          return;
        }
        searchIndex := searchIndex + [IndexUpdate(r.value.code, r.value.name)];
      }
    }

    /** `delete` with the index entry addressed by the deleted row's code. */
    method DeleteCodeKeyed(id: nat) returns (affected: nat)
      requires Valid()
      modifies this
      ensures Valid() && nextId == old(nextId)
      ensures categories == old(categories) - {id}
      ensures affected == if id in old(categories) then 1 else 0
      ensures searchIndex == old(searchIndex) + if id in old(categories) then [IndexRemove(old(categories)[id].code)] else []
    {
      if id in categories {
        searchIndex := searchIndex + [IndexRemove(categories[id].code)];
      }
      affected := if id in categories then 1 else 0;
      categories := categories - {id};
    }

    /** `delete`: removes the index entry keyed by the id's decimal string, then the row itself. */
    method Delete(id: nat) returns (affected: nat)
      requires Valid()
      modifies this
      ensures Valid() && nextId == old(nextId)
      ensures categories == old(categories) - {id}
      ensures affected == if id in old(categories) then 1 else 0
      ensures searchIndex == old(searchIndex) + [IndexRemove(NatToString(id))]
    {
      searchIndex := searchIndex + [IndexRemove(NatToString(id))];
      affected := if id in categories then 1 else 0;
      categories := categories - {id};
    }
  }
}
