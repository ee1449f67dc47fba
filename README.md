# List queries and table updates of the resource services

This project models, in Dafny, the list-query and table-update layer of a multi-tenant
content-management backend (categories, posts, seeded users). It covers:

- the shared base service: `setPagination`, which mutates a query builder (always `skip`, and
  `take` only for a positive limit), and `generateGetAllResponse`, which wraps a page of rows in
  `{ items, meta: { total, page, limit, totalPages } }`;
- the category service: `getAll` composing optional filters, the `isNaN` → `IsNull()` branch for
  `parentId`, the sort-key remap, pagination and search; `getRoots`; `get` with
  `CATEGORY_NOT_FOUND`; `create` with its code and website defaults; the whitelisted `update`;
  `delete`; and the calls each makes to the category search index;
- the post service: `create` defaults, `get`/`getAll` (which never paginates), bulk
  `publish`/`unPublish` over a filter, `upTopById`, `updateById` and the soft `delete`;
- the user seeder: the seeded accounts with dot-free usernames, `upsertUserItem` (upsert by
  email, then delete-and-replace of that user's role mappings), `seed` and `drop`.

Repository tables are maps from id to row with an auto-increment next id (`Table`). The ORM's
query builder is a class that records `where` clauses as opaque values, one ordering, and
optional `skip`/`take` (`QueryBuilder`); `getManyAndCount` keeps the rows, in id order, that
satisfy every clause under an uninterpreted relation `holds`, and applies `skip`/`take` to
them. Each service is a class over its tables; its methods state the new tables and the
invariants they keep: ids match keys, every key is below the next id, and codes are unique.
The helpers whose bodies are not part of this model are function-valued fields or parameters:
`parseBaseListQuery`, `slugify`, the password hash and `holds`. So are the clock and the
environment.

Modules: `Wrappers`, `Table`, `QueryBuilder`, `Decimal` (JavaScript's `String(id)`),
`BaseService`, `CategoryService`, `PostService`, `UserSeeder`.

Three behaviours of the source are easy to miss:
- With `limit = 0`, `totalPages` is JavaScript's `Infinity` (rows) or `NaN` (no rows). It is
  not normalised to 1 or 0. The model has a distinct `TotalPages` value for each.
- Category `getAll` calls `setAlgoliaSearch` after `setPagination`. The builder records both
  either way, and `skip`/`take` act only at execution.
- The post listing does not paginate, but its `meta` still echoes `page` and `limit`.

## Model

| member | source | states |
|---|---|---|
| BaseService.SetPagination | src/base/base.service.ts:6-15 | returns the builder it was given; `skip` becomes the parsed offset; `take` becomes the limit only when it is positive, otherwise any earlier `take` stays; clauses and ordering are untouched |
| BaseService.GenerateGetAllResponse | src/base/base.service.ts:17-34 | items unchanged, `meta.total` is the count given, `page` defaults to 1 and `limit` to 0, `totalPages` is computed against that limit |
| BaseService.TotalPagesOf | src/base/base.service.ts:23 | positive limit: a page count with `pages*limit >= total` and `(pages-1)*limit < total`; zero limit: `Infinity` exactly when there are rows, `NaN` exactly when there are none; negative limit: the ceiling of the non-positive quotient |
| BaseService.CeilDiv | src/base/base.service.ts:23 | ceiling division: enough pages for every row, and one page fewer would not be |
| BaseService.TotalPagesIsLeast | src/base/base.service.ts:23 | for a positive limit, no page count that holds every row is smaller than `totalPages` |
| BaseService.TotalPagesZeroIffEmpty | src/base/base.service.ts:23 | for a positive limit, `totalPages` is 0 exactly when there are no rows |
| BaseService.ResponseScenario | src/base/base.service.ts:22-33 | page 2 at limit 10 over 25 rows reports `{ total: 25, page: 2, limit: 10, totalPages: 3 }` |
| BaseService.SetFilter | src/modules/category/services/category.service.ts:55 | the shared filter helper appends one clause carrying its column and value and returns the same builder |
| BaseService.SetInFilter | src/modules/post/services/post.service.ts:62 | the shared IN-filter helper appends one clause carrying its column and values and returns the same builder |
| BaseService.SetAlgoliaSearch | src/modules/category/services/category.service.ts:69-74 | the search helper appends one clause carrying the id column and the search fields, after all other clauses |
| QueryBuilder.Window | src/base/base.service.ts:11-12 | `skip`/`take` select a contiguous run of the rows starting at the skipped count, no longer than `take` |
| QueryBuilder.Matching | src/modules/category/services/category.service.ts:76 | `getManyAndCount` keeps exactly the rows that satisfy every recorded clause (membership in both directions); order and multiplicity are fixed by the two lemmas below |
| QueryBuilder.MatchingOne | src/modules/category/services/category.service.ts:76 | a single row is kept exactly when it satisfies every clause |
| QueryBuilder.MatchingAppend | src/modules/category/services/category.service.ts:76 | filtering distributes over concatenation, so the matches keep the rows' order and each row's multiplicity |
| QueryBuilder.GetManyAndCount | src/modules/category/services/category.service.ts:76 | the page is the window of the matches and the count is their number; its properties are stated by `CountIgnoresPaging` |
| QueryBuilder.SelectQueryBuilder.AndWhere | src/modules/category/services/category.service.ts:39 | appends one clause; ordering and paging unchanged |
| QueryBuilder.SelectQueryBuilder.OrderBy | src/modules/category/services/category.service.ts:67 | replaces the ordering; clauses and paging unchanged |
| QueryBuilder.SelectQueryBuilder.Skip | src/base/base.service.ts:11 | sets the skipped count; everything else unchanged |
| QueryBuilder.SelectQueryBuilder.Take | src/base/base.service.ts:12 | sets the taken count; everything else unchanged |
| Table.First | src/modules/category/services/category.service.ts:26 | `getOne` without an ordering: the smallest id whose row is accepted, and none exactly when no row is |
| QueryBuilder.CountIgnoresPaging | src/modules/category/services/category.service.ts:76 | the count does not depend on `skip`/`take`; with neither, the rows returned are every match and their number is the count |
| Decimal.NatToString | src/modules/category/services/category.service.ts:118 | `String(id)` is a non-empty string of decimal digits without a leading zero |
| Decimal.NatToStringRoundTrip | src/modules/category/services/category.service.ts:127 | reading `String(id)` back gives the id |
| Decimal.NatToStringInjective | src/modules/category/services/category.service.ts:127 | distinct ids address distinct search-index objects |
| CategoryService.ApplyListFilters | src/modules/category/services/category.service.ts:38-56 | the filter steps append exactly the list clauses for the query, and leave ordering and paging alone |
| CategoryService.WebsiteClause | src/modules/category/services/category.service.ts:38-40 | the website clause; stated by `WebsiteClauseIffTruthy` |
| CategoryService.GroupClause | src/modules/category/services/category.service.ts:42-46 | the category-group IN clause; stated by `GroupClauseIffPresent` |
| CategoryService.ParentClause | src/modules/category/services/category.service.ts:48-52 | the `parentId` clause; stated by `ParentClauseCases` |
| CategoryService.ParentCodeClause | src/modules/category/services/category.service.ts:54-56 | the parent-code filter; stated by `ParentCodeClauseIffTruthy` |
| CategoryService.ListPredicates | src/modules/category/services/category.service.ts:38-56 | the four filter clauses in source order; stated by `AbsentFieldsAddNoClause` and the clause lemmas |
| CategoryService.SortKey | src/modules/category/services/category.service.ts:58-65 | the remapped sort column; stated by `SortKeyRemap` |
| CategoryService.ListQuery | src/modules/category/services/category.service.ts:36-74 | what `getAll` records on its builder; `ApplyListFilters` and `CategoryService.GetAll` are proved to build exactly this |
| CategoryService.HasGroup | src/modules/category/services/category.service.ts:106 | `category.categoryGroup.name` can be read only when the category has a group |
| CategoryService.Matches | src/modules/category/services/category.service.ts:25-26 | a row matches a lookup exactly when it equals every column the lookup names; used by `CategoryService.Get`, whose contract states the lookup |
| CategoryService.IsNaN | src/modules/category/services/category.service.ts:50 | JavaScript's `isNaN`: true for `undefined` and for a value that does not convert to a number (`NotANumber`), false for `null` and for a number; stated by `ParentClauseCases` and `RootsCompareParentWithNull` |
| CategoryService.RootsQuery | src/modules/category/services/category.service.ts:84-87 | the query of `getRoots`: the caller's query with `parentId` replaced by `null`; stated by `RootsCompareParentWithNull` and `CategoryService.GetRoots` |
| CategoryService.ListResponseOf | src/modules/category/services/category.service.ts:76-80 | the envelope over the window and count of the list query's matches among the table's rows; stated by `CategoryService.GetAll`, `CountIgnoresPaging` and `RootsHaveNoParent` |
| CategoryService.WebsiteClauseIffTruthy | src/modules/category/services/category.service.ts:38-40 | the website clause is present exactly when `websiteId` is present and not 0 |
| CategoryService.GroupClauseIffPresent | src/modules/category/services/category.service.ts:42-46 | the category-group IN clause is present exactly when `categoryGroupCodes` is, even as an empty array |
| CategoryService.ParentClauseCases | src/modules/category/services/category.service.ts:48-52 | `IsNull()` on `parentId` exactly when the value is NaN; equality exactly when it is `null` or a number, with that value; nothing when undefined |
| CategoryService.ParentCodeClauseIffTruthy | src/modules/category/services/category.service.ts:54-56 | the parent-code filter is present exactly when `parentCode` is a non-empty string |
| CategoryService.AbsentFieldsAddNoClause | src/modules/category/services/category.service.ts:35-56 | a query with no filter field adds no filter clause; only the search clause is recorded |
| CategoryService.SortKeyRemap | src/modules/category/services/category.service.ts:58-67 | `categoryGroupName` sorts by `categoryGroup.name`, and only it does; any other field by `category.<field>`; none by `category.createdAt` |
| CategoryService.RootsCompareParentWithNull | src/modules/category/services/category.service.ts:83-88 | `getRoots` compares `parentId` with `null` by equality, since `isNaN(null)` is false; it never uses `IsNull()`, and the rest of the list query is unchanged |
| CategoryService.RootsHaveNoParent | src/modules/category/services/category.service.ts:83-88 | if the database reads equality with `null` as "no parent", every category `getRoots` lists is a root |
| CategoryService.CreateCode | src/modules/category/services/category.service.ts:91-95 | the body's code when it is non-empty, otherwise the slug of the name |
| CategoryService.NewCategory | src/modules/category/services/category.service.ts:97-100 | the saved row carries the defaulted code, the body's website or else the user's, and the body's other columns |
| CategoryService.Patched | src/modules/category/services/category.service.ts:112-113 | only `name`, `categoryGroupId` and `thumbnailId` are applied, each only when present; id, code, parent and website never change |
| CategoryService.CategoryService.Get | src/modules/category/services/category.service.ts:25-33 | fails with `CATEGORY_NOT_FOUND` exactly when no row matches; otherwise returns a stored row that matches |
| CategoryService.CategoryService.GetAll | src/modules/category/services/category.service.ts:35-81 | the response is the envelope over the page and count of the composed list query on the current table |
| CategoryService.CategoryService.GetRoots | src/modules/category/services/category.service.ts:83-88 | the response is that of `getAll` for the same query with `parentId` set to `null` |
| CategoryService.CategoryService.Create | src/modules/category/services/category.service.ts:90-110 | a code already in use fails and changes nothing: the table, the next id and the index stay; otherwise exactly one new row under the next id, and the next id advances by one; the row is read back by code and indexed under that code, unless it has no group, when reading the group name fails after the save and before any index call |
| CategoryService.CategoryService.Update | src/modules/category/services/category.service.ts:112-124 | a missing id fails with `CATEGORY_NOT_FOUND` and changes nothing; otherwise only that row is patched, and the index is updated under `String(id)` unless the patched row has no group, when reading the group name fails after the patch and before the index call |
| CategoryService.CategoryService.Delete | src/modules/category/services/category.service.ts:126-129 | exactly the row with that id is removed; the index removal is addressed by `String(id)` |
| CategoryService.DeleteByIdStrandsCodeEntry | src/modules/category/services/category.service.ts:103-128 | after a create and a delete, the object saved under the code is still indexed whenever the code is not the id's decimal string |
| CategoryService.DeleteByIdStrandsEntryExample | src/modules/category/services/category.service.ts:103-128 | code "apartment", id 7: the delete removes "7" and "apartment" stays indexed |
| CategoryService.CodeKeyedDeleteRestoresIndex | src/modules/category/services/category.service.ts:103-128 | with the code as the key throughout, create then delete leaves the index's objects as they were |
| CategoryService.CodeKeyedUpdateKeepsKeys | src/modules/category/services/category.service.ts:103-121 | with the code as the key, an update rewrites the object the category was created under and adds none |
| CategoryService.CategoryService.UpdateCodeKeyed | src/modules/category/services/category.service.ts:112-124 | `update` with the index addressed by the row's code, with the same patch and the same failure for a row without a group |
| CategoryService.CategoryService.DeleteCodeKeyed | src/modules/category/services/category.service.ts:126-129 | `delete` with the index addressed by the deleted row's code |
| PostService.StatusNames | src/modules/post/services/post.service.ts:65-67 | the statuses filter binds one label per requested status, in order |
| PostService.CreateCode | src/modules/post/services/post.service.ts:23-27 | the body's code when it is non-empty, otherwise the slug of the title |
| PostService.NewPost | src/modules/post/services/post.service.ts:29-33 | the new row ignores any status in the body (the column default applies), takes the user's website over the body's, and carries the defaulted code |
| PostService.ListPredicates | src/modules/post/services/post.service.ts:53-67 | the four filter clauses in source order; stated by `ListClausesFollowQuery` |
| PostService.Live | src/modules/post/services/post.service.ts:96-101 | reads through the query builder skip soft-deleted rows; used by `SoftDeleteHidesMatches` and `ListIsUnpaged` |
| PostService.StatusName | src/modules/post/services/post.service.ts:65-66 | the label each status is bound as; used by `StatusNames` (see the line on status labels under Left out) |
| PostService.Matches | src/modules/post/services/post.service.ts:38-39 | a row matches a lookup exactly when it equals every column the lookup names; used by `PostService.Get`, `WithStatus` and `SoftDeleted` |
| PostService.ListResponseOf | src/modules/post/services/post.service.ts:69-73 | the envelope over every visible match of the filter clauses, never paged, with the query's page fields echoed; stated by `ListIsUnpaged` and `PostService.GetAll` |
| PostService.WithStatus | src/modules/post/services/post.service.ts:76-82 | every row matching the filter gets the status; unmatched rows and all other columns are unchanged |
| PostService.WithStatusIdempotent | src/modules/post/services/post.service.ts:76-82 | publishing or unpublishing twice over one filter equals doing it once |
| PostService.SoftDeleted | src/modules/post/services/post.service.ts:92-94 | matching rows are marked deleted, not removed; nothing else changes |
| PostService.SoftDeleteKeepsStatus | src/modules/post/services/post.service.ts:92-94 | a soft delete keeps every row and every row's status |
| PostService.SoftDeleteHidesMatches | src/modules/post/services/post.service.ts:92-94 | after a soft delete, no row that reads can see matches the filter |
| PostService.Updated | src/modules/post/services/post.service.ts:88-90 | each present body column (code, title, status, category, website, avatar) overwrites the row's; absent ones and the id stay |
| PostService.ListClausesFollowQuery | src/modules/post/services/post.service.ts:53-67 | website and category equality filters exactly when truthy; the category-ids and statuses IN filters exactly when present |
| PostService.ListIsUnpaged | src/modules/post/services/post.service.ts:50-73 | the listing is every visible row that satisfies the clauses, so its length equals `meta.total` |
| PostService.PostService.Create | src/modules/post/services/post.service.ts:22-36 | no user fails reading its website, and a code in use fails; both failures change neither the table nor the next id; otherwise exactly one new row under the next id, and the next id advances by one |
| PostService.PostService.Get | src/modules/post/services/post.service.ts:38-48 | nothing, not an error, exactly when no visible row matches; otherwise a stored, visible, matching row |
| PostService.PostService.GetAll | src/modules/post/services/post.service.ts:50-74 | the response is the unpaged listing of the composed filters over the visible rows |
| PostService.PostService.UnPublish | src/modules/post/services/post.service.ts:76-78 | every matching row becomes UNPUBLISHED, nothing else changes; returns how many matched |
| PostService.PostService.Publish | src/modules/post/services/post.service.ts:80-82 | every matching row becomes PUBLISHED, nothing else changes; returns how many matched |
| PostService.PostService.UpTopById | src/modules/post/services/post.service.ts:84-86 | only `updatedAt` of the row with that id changes |
| PostService.PostService.UpdateById | src/modules/post/services/post.service.ts:88-90 | the row with that id gets the body's present columns; a code used by another row is refused |
| PostService.PostService.Delete | src/modules/post/services/post.service.ts:92-94 | the table becomes its soft-deleted version; returns how many matched |
| UserSeeder.Underscored | src/seeders/user.seeder.ts:24 | same length; every `.` becomes `_` and every other character stays |
| UserSeeder.SeedUsername | src/seeders/user.seeder.ts:24-42 | the prefix followed by the underscored domain; stated by `SeededUsernamesHaveNoDots` |
| UserSeeder.UserItems | src/seeders/user.seeder.ts:21-49 | the three seeded accounts |
| UserSeeder.SeedUsernameHasNoDots | src/seeders/user.seeder.ts:24-42 | for any prefix and domain, no character after the prefix of the seeded username is a dot |
| UserSeeder.SeededUsernamesHaveNoDots | src/seeders/user.seeder.ts:24-42 | each username is `root_` or `admin_` followed by the domain with dots replaced, and no dot remains after the prefix |
| UserSeeder.FindWebsite | src/seeders/user.seeder.ts:75 | the first website whose url is the domain; none exactly when no website has it |
| UserSeeder.StoredPassword | src/seeders/user.seeder.ts:74 | the hash of the item's password, or of the root password when it is absent or empty; used by `SeededUser` |
| UserSeeder.SeededUser | src/seeders/user.seeder.ts:74-88 | the row stores the hash of the item's password, or of the root password when it has none, and the matched website's id |
| UserSeeder.MappingsFor | src/seeders/user.seeder.ts:96-107 | one mapping per role whose slug is requested, in role order; stated by `MappingsForExactlyRequested` |
| UserSeeder.MappingsForExactlyRequested | src/seeders/user.seeder.ts:96-107 | the mappings are exactly this user's, one for each role whose slug is requested; requested slugs with no role add nothing |
| UserSeeder.ReplaceMappings | src/seeders/user.seeder.ts:109-111 | deleting a user's mappings and saving new ones leaves exactly the new ones for that user and the others' untouched |
| UserSeeder.NotOfUser | src/seeders/user.seeder.ts:109 | `delete({ userId })`: the other users' mappings, in order; stated by `NotOfUserHasNone` and `ReplaceMappings` |
| UserSeeder.NotOfUserHasNone | src/seeders/user.seeder.ts:109 | after the delete, no mapping of that user remains |
| UserSeeder.TablesValid | src/seeders/user.seeder.ts:90-94 | every user row lives under its own id, below the next id; kept by `Upserted`, `SeededAll` and every seeder method |
| UserSeeder.UpsertId | src/seeders/user.seeder.ts:69-94 | the first user with the item's email when there is one (a row carrying that email, with no smaller such id), and otherwise the next id, exactly when no row has that email |
| UserSeeder.Upserted | src/seeders/user.seeder.ts:68-112 | the tables after one upsert; keeps the table invariant; its content is stated by `UpsertedSpec` and `UpsertedKeepsRows` |
| UserSeeder.UpsertedSpec | src/seeders/user.seeder.ts:68-112 | a missing website changes nothing; otherwise the row for the item is written under `UpsertId`, the next id advances exactly when that id was new, the user's mappings become one per requested role, and every other user's mappings stay |
| UserSeeder.UpsertedKeepsRows | src/seeders/user.seeder.ts:68-112 | one upsert keeps every email already present, adds the item's when its website exists, and leaves every row with another email unchanged |
| UserSeeder.SeededAll | src/seeders/user.seeder.ts:114-121 | the tables after upserting the items one after another; keeps the table invariant; its content is stated by `SeedWritesFoundItems` |
| UserSeeder.SeedWritesFoundItems | src/seeders/user.seeder.ts:114-121 | after `seed`, every item whose website exists has a user row with its email, and every row whose email no item carries is exactly as it was |
| UserSeeder.AllFoundIff | src/seeders/user.seeder.ts:77-120 | the sequential check that no upsert fails holds exactly when every item's website is found |
| UserSeeder.UserSeeder.UpsertUserItem | src/seeders/user.seeder.ts:68-112 | a missing website fails with its domain and writes nothing; otherwise it returns the mappings saved for the upserted user, one per requested role in role order, and the new tables are exactly `Upserted` of the old (whose content `UpsertedSpec` states); roles and websites are unchanged |
| UserSeeder.UserSeeder.Seed | src/seeders/user.seeder.ts:114-121 | roles and websites are loaded; the run succeeds exactly when every item's website exists; the final tables are exactly `SeededAll` of the old ones over the items, whose content `SeedWritesFoundItems` states |
| UserSeeder.UserSeeder.Drop | src/seeders/user.seeder.ts:123-125 | the user table and the role-mapping table are empty, and the seeder's invariant holds |

## Findings

| source | as written | input that shows it | evidently intended | confidence | as-written member | corrected member |
|---|---|---|---|---|---|---|
| src/modules/category/services/category.service.ts:103-128 | `create` saves the search object under `category.code`, but `update` and `delete` address it by `String(id)` | create a category with code "apartment" that gets id 7, then `delete(7)`: the index removes "7" and "apartment" stays | one key throughout, the code, which the search filter matches against `category.code` | medium (the search service's body is not part of this model); not executed | CategoryService.DeleteByIdStrandsEntryExample | CategoryService.CodeKeyedDeleteRestoresIndex |

The service methods `Update` and `Delete` model the code as written. `UpdateCodeKeyed` and
`DeleteCodeKeyed` are the corrected versions, keyed by code.

## Left out

- Joins and hierarchy: the joins that attach parent, children, thumbnail, website and category
  group to a category, and avatar and category to a post, are not modelled. Rows are flat, and
  a category's children are not assembled.
- What a clause means to the database is left out. This covers SQL text, `IsNull()`, a `null`
  value in `where`, and the search index's answer. Execution takes it as the uninterpreted
  `holds`.
- Sorting: the sort key is recorded but not applied at execution. Rows come back in id order.
- The bodies of `setFilter`, `setInFilter`, `setAlgoliaSearch` and `parseBaseListQuery` are
  not part of this model. The first three record one opaque clause each. The last is a
  function parameter.
- `slugify` and the password hash are function parameters.
- Image variants (`mapVariantToImage`) are not modelled: rows are returned as read.
- The search index is a log of calls. The `categoryGroupName` field of index records is left
  out because it needs the joined category group.
- List-query fields are integers. A `page` or `limit` string that `Number` turns into `NaN` is
  not modelled.
- The column default for a new post's status and the unique constraint on `code` come from
  entity declarations that are not part of this model. The default is a parameter. The
  constraint is modelled as a failed save.
- Timestamps that the ORM writes by itself on update are not modelled. Only `upTopById`
  writes `updatedAt`, and it takes the clock as a parameter.
- An update with no whitelisted column present is not modelled as the ORM's error. It applies
  nothing and then reads the row back.
- A category's group is present exactly when it has a group id. A group id that names no
  existing group is not modelled: the join would then find nothing and reading its name would
  fail too.
- A category lookup filters only on `id` and `code`, the two columns this service passes to
  `get`. The other columns a `FindOptionsWhere` may name are not modelled.
- PostService.Updated: the update body's type is not part of this model. It is taken to carry
  code, title, status, category, website and avatar, each optional. `updatedAt` is not
  refreshed, as the line on ORM timestamps above says.
- CategoryService.CategoryService.Create: the caller's body object, whose `code` the source
  overwrites in place, is not returned.
- PostService.StatusName: the labels "DRAFT", "PUBLISHED" and "UNPUBLISHED" are assumed. The
  status enum is imported from a package (post.service.ts:1) whose text is not part of this
  model, so only the labels' distinctness matters to what is proved.
- Environment variables are fields of `SeedEnv`, and `console.log` is left out.
- `seed` runs its upserts one after another rather than concurrently. Its final tables are
  those of the sequential run when no two items share an email, up to the order in which new ids
  are assigned and the order of the saved mappings.
- `drop` clears both tables in one step rather than with two parallel deletes.
- CategoryService.RootsHaveNoParent: holds only under the stated reading of equality with
  `null`, which the ORM may not share.
