/**
 * The user seeder: derives the seeded accounts from the deployment's domains, upserts each by
 * email into the user table, and replaces that user's role mappings with one per requested role.
 */
module UserSeeder {
  import opened Wrappers
  import opened Table

  /** One account to seed. */
  datatype SeedItem = SeedItem(
    email: string,
    username: string,
    password: Option<string>,
    firstName: string,
    lastName: string,
    websiteDomain: string,
    roleSlugs: seq<string>)

  datatype User = User(
    id: nat,
    email: string,
    username: string,
    password: string,
    firstName: string,
    lastName: string,
    websiteId: nat)

  datatype Role = Role(id: nat, slug: string)

  datatype Website = Website(id: nat, url: string)

  datatype RoleMapping = RoleMapping(userId: nat, roleId: nat)

  datatype SeedError = WebsiteNotFound(domain: string)

  /**
   * What the seeded accounts are built from: the root domain and password read from the
   * environment, the two client domains and the two role slugs of the shared enumerations.
   */
  datatype SeedEnv = SeedEnv(
    rootDomain: string,
    rootPassword: Option<string>,
    baolocDomain: string,
    acBuildingDomain: string,
    rootSlug: string,
    adminSlug: string)

  /** `s.replace(/\./g, '_')`: every dot becomes an underscore, every other character stays. */
  function Underscored(s: string): (r: string)
    ensures |r| == |s|
    ensures forall i :: 0 <= i < |s| ==> r[i] == if s[i] == '.' then '_' else s[i]
  {
    if s == [] then [] else [if s[0] == '.' then '_' else s[0]] + Underscored(s[1..])
  }

  /** The username seeded for `domain`: the prefix, then the domain without dots. */
  function SeedUsername(prefix: string, domain: string): string {
    prefix + Underscored(domain)
  }

  /** The accounts the seeder creates. */
  function UserItems(env: SeedEnv): (items: seq<SeedItem>)
    ensures |items| == 3
  {
    [ SeedItem("root@" + env.rootDomain, SeedUsername("root_", env.rootDomain), env.rootPassword,
               "Khac Khanh", "Nguyen", env.rootDomain, [env.rootSlug, env.adminSlug]),
      SeedItem("admin@" + env.baolocDomain, SeedUsername("admin_", env.baolocDomain), Some("123456"),
               "Admin", "Baoloc RE", env.baolocDomain, [env.adminSlug]),
      SeedItem("admin@" + env.acBuildingDomain, SeedUsername("admin_", env.acBuildingDomain), Some("123456"),
               "Admin", "AC Building", env.acBuildingDomain, [env.adminSlug]) ]
  }

  /** After its prefix, a seeded username holds no dot. */
  lemma SeedUsernameHasNoDots(prefix: string, domain: string)
    ensures forall i :: |prefix| <= i < |SeedUsername(prefix, domain)| ==> SeedUsername(prefix, domain)[i] != '.'
  {
    var u := SeedUsername(prefix, domain);
    forall i | |prefix| <= i < |u|
      ensures u[i] != '.'
    {
      assert u[i] == Underscored(domain)[i - |prefix|];
    }
  }

  /**
   * Each seeded username is its prefix followed by its website domain with the dots turned into
   * underscores, and no dot survives from the domain.
   */
  lemma SeededUsernamesHaveNoDots(env: SeedEnv)
    ensures forall item :: item in UserItems(env) ==>
      exists prefix :: prefix in ["root_", "admin_"] && item.username == prefix + Underscored(item.websiteDomain)
    ensures forall item :: item in UserItems(env) ==>
      forall i :: |item.username| - |item.websiteDomain| <= i < |item.username| ==> item.username[i] != '.'
  {
    var items := UserItems(env);
    SeedUsernameHasNoDots("root_", env.rootDomain);
    SeedUsernameHasNoDots("admin_", env.baolocDomain);
    SeedUsernameHasNoDots("admin_", env.acBuildingDomain);
    forall item | item in items
      ensures exists prefix :: prefix in ["root_", "admin_"] && item.username == prefix + Underscored(item.websiteDomain)
      ensures forall i :: |item.username| - |item.websiteDomain| <= i < |item.username| ==> item.username[i] != '.'
    {
      var prefix := if item == items[0] then "root_" else "admin_";
      assert item.username == SeedUsername(prefix, item.websiteDomain);
      assert prefix in ["root_", "admin_"];
    }
  }

  /** `Array.prototype.find`: the first website whose url is `domain`. */
  function FindWebsite(websites: seq<Website>, domain: string): (r: Option<Website>)
    ensures r.Some? ==> r.value in websites && r.value.url == domain
    ensures r.Some? ==> exists i :: 0 <= i < |websites| && websites[i] == r.value
                                    && forall j :: 0 <= j < i ==> websites[j].url != domain
    ensures r.None? <==> forall w :: w in websites ==> w.url != domain
  {
    if websites == [] then None
    else if websites[0].url == domain then Some(websites[0])
    else
      var rest := FindWebsite(websites[1..], domain);
      if rest.Some? then
        var i :| 0 <= i < |websites[1..]| && websites[1..][i] == rest.value
                 && forall j :: 0 <= j < i ==> websites[1..][j].url != domain;
        assert websites[i + 1] == rest.value;
        assert forall j :: 1 <= j < i + 1 ==> websites[j] == websites[1..][j - 1];
        rest
      else rest
  }

  /** Some website has the item's domain, so its upsert goes ahead. */
  predicate WebsiteFound(websites: seq<Website>, item: SeedItem) {
    FindWebsite(websites, item.websiteDomain).Some?
  }

  /** Every item's website exists, so no upsert of `seed` fails. */
  function AllFound(websites: seq<Website>, items: seq<SeedItem>): bool {
    if items == [] then true
    else AllFound(websites, items[..|items| - 1]) && WebsiteFound(websites, items[|items| - 1])
  }

  /** `AllFound` holds exactly when every item's website is found. */
  lemma {:induction false} AllFoundIff(websites: seq<Website>, items: seq<SeedItem>)
    ensures AllFound(websites, items) <==> forall item :: item in items ==> WebsiteFound(websites, item)
  {
    if items != [] {
      var front := items[..|items| - 1];
      AllFoundIff(websites, front);
      assert items == front + [items[|items| - 1]];
    }
  }

  /** The password stored for `item`: the hash of its own, or of the configured root password when it has none. */
  function StoredPassword(item: SeedItem, hash: string -> string, rootPassword: string): string {
    hash(if item.password.None? || item.password.value == "" then rootPassword else item.password.value)
  }

  /** The user row written for `item` under `id`. */
  function SeededUser(id: nat, item: SeedItem, websiteId: nat, hash: string -> string, rootPassword: string): (u: User)
    ensures u.id == id && u.email == item.email && u.username == item.username && u.websiteId == websiteId
    ensures u.password == StoredPassword(item, hash, rootPassword)
    ensures u.firstName == item.firstName && u.lastName == item.lastName
  {
    User(id, item.email, item.username, StoredPassword(item, hash, rootPassword), item.firstName, item.lastName, websiteId)
  }

  /** One mapping to `userId` for each role, in order, whose slug is requested. */
  function MappingsFor(userId: nat, roles: seq<Role>, slugs: seq<string>): seq<RoleMapping> {
    if roles == [] then []
    else
      var last := roles[|roles| - 1];
      MappingsFor(userId, roles[..|roles| - 1], slugs)
        + (if last.slug in slugs then [RoleMapping(userId, last.id)] else [])
  }

  /**
   * The mappings are exactly those of `userId` to the roles whose slug is requested; a requested
   * slug that no role has adds nothing.
   */
  lemma {:induction false} MappingsForExactlyRequested(userId: nat, roles: seq<Role>, slugs: seq<string>)
    ensures forall m :: m in MappingsFor(userId, roles, slugs) ==> m.userId == userId
    ensures forall m :: m in MappingsFor(userId, roles, slugs) <==>
      m.userId == userId && exists r :: r in roles && r.slug in slugs && r.id == m.roleId
  {
    if roles != [] {
      var front := roles[..|roles| - 1];
      var last := roles[|roles| - 1];
      MappingsForExactlyRequested(userId, front, slugs);
      assert roles == front + [last];
      forall m ensures m in MappingsFor(userId, roles, slugs) <==>
        m.userId == userId && exists r :: r in roles && r.slug in slugs && r.id == m.roleId
      {
        if m.userId == userId && exists r :: r in roles && r.slug in slugs && r.id == m.roleId {
          var r :| r in roles && r.slug in slugs && r.id == m.roleId;
          if r != last {
            assert r in front;
          }
        }
      }
    }
  }

  /** The mappings of user `userId`. */
  function OfUser(ms: seq<RoleMapping>, userId: nat): seq<RoleMapping> {
    if ms == [] then []
    else OfUser(ms[..|ms| - 1], userId) + (if ms[|ms| - 1].userId == userId then [ms[|ms| - 1]] else [])
  }

  /** The mappings of every other user: what `delete({ userId })` leaves. */
  function NotOfUser(ms: seq<RoleMapping>, userId: nat): seq<RoleMapping> {
    if ms == [] then []
    else NotOfUser(ms[..|ms| - 1], userId) + (if ms[|ms| - 1].userId != userId then [ms[|ms| - 1]] else [])
  }

  lemma {:induction false} OfUserAppend(a: seq<RoleMapping>, b: seq<RoleMapping>, userId: nat)
    ensures OfUser(a + b, userId) == OfUser(a, userId) + OfUser(b, userId)
    ensures NotOfUser(a + b, userId) == NotOfUser(a, userId) + NotOfUser(b, userId)
  {
    if b == [] {
      assert a + b == a;
    } else {
      var front, last := b[..|b| - 1], b[|b| - 1];
      OfUserAppend(a, front, userId);
      assert (a + b)[..|a + b| - 1] == a + front;
      assert (a + b)[|a + b| - 1] == last;
      var mine := if last.userId == userId then [last] else [];
      var others := if last.userId != userId then [last] else [];
      assert OfUser(a + b, userId) == OfUser(a + front, userId) + mine;
      assert OfUser(b, userId) == OfUser(front, userId) + mine;
      assert OfUser(a, userId) + OfUser(front, userId) + mine == OfUser(a, userId) + (OfUser(front, userId) + mine);
      assert NotOfUser(a + b, userId) == NotOfUser(a + front, userId) + others;
      assert NotOfUser(b, userId) == NotOfUser(front, userId) + others;
      assert NotOfUser(a, userId) + NotOfUser(front, userId) + others == NotOfUser(a, userId) + (NotOfUser(front, userId) + others);
    }
  }

  lemma {:induction false} OfUserNone(ms: seq<RoleMapping>, userId: nat)
    requires forall m :: m in ms ==> m.userId != userId
    ensures OfUser(ms, userId) == [] && NotOfUser(ms, userId) == ms
  {
    if ms != [] {
      OfUserNone(ms[..|ms| - 1], userId);
    }
  }

  lemma {:induction false} OfUserAll(ms: seq<RoleMapping>, userId: nat)
    requires forall m :: m in ms ==> m.userId == userId
    ensures OfUser(ms, userId) == ms && NotOfUser(ms, userId) == []
  {
    if ms != [] {
      OfUserAll(ms[..|ms| - 1], userId);
    }
  }

  lemma {:induction false} NotOfUserHasNone(ms: seq<RoleMapping>, userId: nat)
    ensures forall m :: m in NotOfUser(ms, userId) ==> m.userId != userId
  {
    if ms != [] {
      NotOfUserHasNone(ms[..|ms| - 1], userId);
    }
  }

  /**
   * Deleting a user's mappings and appending new ones for that user leaves exactly the new ones
   * for that user and every other user's mappings as they were.
   */
  lemma ReplaceMappings(ms: seq<RoleMapping>, added: seq<RoleMapping>, userId: nat)
    requires forall m :: m in added ==> m.userId == userId
    ensures OfUser(NotOfUser(ms, userId) + added, userId) == added
    ensures NotOfUser(NotOfUser(ms, userId) + added, userId) == NotOfUser(ms, userId)
  {
    OfUserAppend(NotOfUser(ms, userId), added, userId);
    NotOfUserHasNone(ms, userId);
    OfUserNone(NotOfUser(ms, userId), userId);
    OfUserAll(added, userId);
  }

  /** The tables the seeder writes: users with their next id, and the role mappings. */
  datatype SeedTables = SeedTables(users: map<nat, User>, nextUserId: nat, mappings: seq<RoleMapping>)

  /** Every user row lives under its own id, below the next id. */
  predicate TablesValid(t: SeedTables) {
    && KeysBelow(t.users, t.nextUserId)
    && (forall k :: k in t.users ==> t.users[k].id == k)
  }

  /**
   * The id a row for `email` is written under: the first user that has that email, or else the
   * next id.
   */
  function UpsertId(t: SeedTables, email: string): (id: nat)
    requires TablesValid(t)
    ensures id in t.users ==> t.users[id].email == email && forall k :: k in t.users && t.users[k].email == email ==> id <= k
    ensures id !in t.users <==> id == t.nextUserId
    ensures id !in t.users <==> forall k :: k in t.users ==> t.users[k].email != email
  {
    var existing := First(t.users, t.nextUserId, (u: User) => u.email == email);
    if existing.Some? then existing.value else t.nextUserId
  }

  /** The tables after one `upsertUserItem`: unchanged when the website is missing. */
  function Upserted(t: SeedTables, item: SeedItem, roles: seq<Role>, websites: seq<Website>,
                    hash: string -> string, rootPassword: string): (t': SeedTables)
    requires TablesValid(t)
    ensures TablesValid(t')
  {
    var website := FindWebsite(websites, item.websiteDomain);
    if website.None? then t
    else
      var id := UpsertId(t, item.email);
      SeedTables(t.users[id := SeededUser(id, item, website.value.id, hash, rootPassword)],
                 if id == t.nextUserId then t.nextUserId + 1 else t.nextUserId,
                 NotOfUser(t.mappings, id) + MappingsFor(id, roles, item.roleSlugs))
  }

  /**
   * One upsert, as `upsertUserItem` performs it: nothing changes when no website has the item's
   * domain; otherwise the row is written under the existing user's id or the next id, and that
   * user's mappings become one per requested role, in role order, while every other user's stay.
   */
  lemma UpsertedSpec(t: SeedTables, item: SeedItem, roles: seq<Role>, websites: seq<Website>,
                     hash: string -> string, rootPassword: string)
    requires TablesValid(t)
    ensures FindWebsite(websites, item.websiteDomain).None? ==> Upserted(t, item, roles, websites, hash, rootPassword) == t
    ensures FindWebsite(websites, item.websiteDomain).Some? ==>
      var id := UpsertId(t, item.email);
      var t' := Upserted(t, item, roles, websites, hash, rootPassword);
      && t'.users == t.users[id := SeededUser(id, item, FindWebsite(websites, item.websiteDomain).value.id, hash, rootPassword)]
      && (id in t.users <==> t'.nextUserId == t.nextUserId)
      && OfUser(t'.mappings, id) == MappingsFor(id, roles, item.roleSlugs)
      && NotOfUser(t'.mappings, id) == NotOfUser(t.mappings, id)
  {
    if FindWebsite(websites, item.websiteDomain).Some? {
      var id := UpsertId(t, item.email);
      MappingsForExactlyRequested(id, roles, item.roleSlugs);
      ReplaceMappings(t.mappings, MappingsFor(id, roles, item.roleSlugs), id);
    }
  }

  /** The tables after upserting `items` one after another. */
  function SeededAll(t: SeedTables, items: seq<SeedItem>, roles: seq<Role>, websites: seq<Website>,
                     hash: string -> string, rootPassword: string): (t': SeedTables)
    requires TablesValid(t)
    ensures TablesValid(t')
  {
    if items == [] then t
    else Upserted(SeededAll(t, items[..|items| - 1], roles, websites, hash, rootPassword),
                  items[|items| - 1], roles, websites, hash, rootPassword)
  }

  /** Some user row carries `email`. */
  predicate HasEmail(users: map<nat, User>, email: string) {
    exists k :: k in users && users[k].email == email
  }

  /**
   * One upsert keeps every email already present, adds the item's when its website exists, and
   * leaves every row with another email as it was.
   */
  lemma UpsertedKeepsRows(t: SeedTables, item: SeedItem, roles: seq<Role>, websites: seq<Website>,
                          hash: string -> string, rootPassword: string)
    requires TablesValid(t)
    ensures forall e :: HasEmail(t.users, e) ==> HasEmail(Upserted(t, item, roles, websites, hash, rootPassword).users, e)
    ensures FindWebsite(websites, item.websiteDomain).Some? ==>
      HasEmail(Upserted(t, item, roles, websites, hash, rootPassword).users, item.email)
    ensures forall k :: k in t.users && t.users[k].email != item.email ==>
      k in Upserted(t, item, roles, websites, hash, rootPassword).users
      && Upserted(t, item, roles, websites, hash, rootPassword).users[k] == t.users[k]
  {
    var t' := Upserted(t, item, roles, websites, hash, rootPassword);
    var website := FindWebsite(websites, item.websiteDomain);
    if website.Some? {
      var id := UpsertId(t, item.email);
      assert t'.users == t.users[id := SeededUser(id, item, website.value.id, hash, rootPassword)];
      assert t'.users[id].email == item.email;
      forall e | HasEmail(t.users, e)
        ensures HasEmail(t'.users, e)
      {
        var k :| k in t.users && t.users[k].email == e;
        if k == id {
          assert e == item.email;
        } else {
          assert t'.users[k] == t.users[k];
        }
      }
    }
  }

  /**
   * After `seed`, every item whose website exists has a user row with its email, and every row
   * whose email no item carries is exactly as it was.
   */
  lemma {:induction false} SeedWritesFoundItems(t: SeedTables, items: seq<SeedItem>, roles: seq<Role>,
                                                websites: seq<Website>, hash: string -> string, rootPassword: string)
    requires TablesValid(t)
    ensures forall item :: item in items && FindWebsite(websites, item.websiteDomain).Some? ==>
      HasEmail(SeededAll(t, items, roles, websites, hash, rootPassword).users, item.email)
    ensures forall k :: k in t.users && (forall item :: item in items ==> item.email != t.users[k].email) ==>
      k in SeededAll(t, items, roles, websites, hash, rootPassword).users
      && SeededAll(t, items, roles, websites, hash, rootPassword).users[k] == t.users[k]
  {
    if items != [] {
      var front := items[..|items| - 1];
      var last := items[|items| - 1];
      assert items == front + [last];
      assert forall item :: item in front ==> item in items;
      SeedWritesFoundItems(t, front, roles, websites, hash, rootPassword);
      var mid := SeededAll(t, front, roles, websites, hash, rootPassword);
      UpsertedKeepsRows(mid, last, roles, websites, hash, rootPassword);
      forall item | item in items && FindWebsite(websites, item.websiteDomain).Some?
        ensures HasEmail(SeededAll(t, items, roles, websites, hash, rootPassword).users, item.email)
      {
        if item != last {
          assert item in front;
        }
      }
    }
  }

  class UserSeeder {
    var roleItems: seq<Role>
    var websiteItems: seq<Website>
    var users: map<nat, User>
    var nextUserId: nat
    var mappings: seq<RoleMapping>
    const hash: string -> string
    /** The configured root password, used for items without a password of their own. */
    const rootPassword: string

    /** The tables this seeder writes, as one value. */
    function Tables(): SeedTables
      reads this
    {
      SeedTables(users, nextUserId, mappings)
    }

    ghost predicate Valid()
      reads this
    {
      TablesValid(Tables())
    }

    constructor (hash: string -> string, rootPassword: string, users: map<nat, User>, nextUserId: nat, mappings: seq<RoleMapping>)
      requires KeysBelow(users, nextUserId) && forall k :: k in users ==> users[k].id == k
      ensures Valid() && roleItems == [] && websiteItems == []
      ensures this.users == users && this.nextUserId == nextUserId && this.mappings == mappings
      ensures this.hash == hash && this.rootPassword == rootPassword
    {
      roleItems, websiteItems := [], [];
      this.users, this.nextUserId, this.mappings := users, nextUserId, mappings;
      this.hash, this.rootPassword := hash, rootPassword;
    }

    /**
     * `upsertUserItem`: fails, changing nothing, when no website has the item's domain;
     * otherwise writes the user row (in place if the email is known, else under a new id)
     * and replaces that user's role mappings with one per requested role, in role order.
     */
    method UpsertUserItem(item: SeedItem) returns (r: Result<seq<RoleMapping>, SeedError>)
      requires Valid()
      modifies this
      ensures Valid()
      ensures roleItems == old(roleItems) && websiteItems == old(websiteItems)
      ensures FindWebsite(websiteItems, item.websiteDomain).None? ==> r == Err(WebsiteNotFound(item.websiteDomain))
      ensures FindWebsite(websiteItems, item.websiteDomain).Some? ==>
        r == Ok(MappingsFor(UpsertId(old(Tables()), item.email), roleItems, item.roleSlugs))
      ensures Tables() == Upserted(old(Tables()), item, roleItems, websiteItems, hash, rootPassword)
    {
      var record := First(users, nextUserId, (u: User) => u.email == item.email);
      var website := FindWebsite(websiteItems, item.websiteDomain);
      if website.None? {
        r := Err(WebsiteNotFound(item.websiteDomain));
        return;
      }
      var id: nat;
      if record.Some? {
        id := record.value;
      } else {
        id := nextUserId;
        nextUserId := nextUserId + 1;
      }
      users := users[id := SeededUser(id, item, website.value.id, hash, rootPassword)];

      var items: seq<RoleMapping> := [];
      for i := 0 to |roleItems|
        invariant items == MappingsFor(id, roleItems[..i], item.roleSlugs)
      {
        assert roleItems[..i + 1][..i] == roleItems[..i];
        if roleItems[i].slug in item.roleSlugs {
          items := items + [RoleMapping(id, roleItems[i].id)];
        }
      }
      assert roleItems[..|roleItems|] == roleItems;

      mappings := NotOfUser(mappings, id) + items;
      r := Ok(items);
    }

    /**
     * `seed`: loads the roles and websites, then upserts every item. One missing website fails
     * the whole run, but the other items are still written.
     */
    method Seed(roles: seq<Role>, websites: seq<Website>, items: seq<SeedItem>) returns (ok: bool)
      requires Valid()
      modifies this
      ensures Valid()
      ensures roleItems == roles && websiteItems == websites
      ensures ok <==> forall item :: item in items ==> FindWebsite(websites, item.websiteDomain).Some?
      ensures Tables() == SeededAll(old(Tables()), items, roles, websites, hash, rootPassword)
    {
      ghost var t0 := Tables();
      roleItems := roles;
      websiteItems := websites;
      ok := true;
      for i := 0 to |items|
        invariant Valid()
        invariant roleItems == roles && websiteItems == websites
        invariant ok == AllFound(websites, items[..i])
        invariant Tables() == SeededAll(t0, items[..i], roles, websites, hash, rootPassword)
      {
        ghost var before := Tables();
        ghost var found := WebsiteFound(websites, items[i]);
        var r := UpsertUserItem(items[i]);
        assert r.Err? <==> !found;
        if r.Err? {
          ok := false;
        }
        assert items[..i + 1][..i] == items[..i] && items[..i + 1][i] == items[i];
        assert SeededAll(t0, items[..i + 1], roles, websites, hash, rootPassword)
            == Upserted(before, items[i], roles, websites, hash, rootPassword);
      }
      assert items[..|items|] == items;
      AllFoundIff(websites, items);
    }

    /** `drop`: empties the user table and the role-mapping table. */
    method Drop()
      modifies this
      ensures Valid()
      ensures users == map[] && mappings == []
      ensures nextUserId == old(nextUserId) && roleItems == old(roleItems) && websiteItems == old(websiteItems)
    {
      users := map[];
      mappings := [];
    }
  }
}
