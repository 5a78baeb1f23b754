/**
 * The data layer: the User, Client and Ad tables, the lookups made on them,
 * the three create operations and the proximity query.
 *
 * SHA-1 and the geodesic distance come from libraries outside the model;
 * a `Database` is built around both, given as functions.
 */
module Db {
  import opened Wrappers
  import opened Strings
  import opened Records

  /** A `filter_by(...).first()` query: the first row, in table order, satisfying `p`. */
  function FirstIndex<T>(rows: seq<T>, p: T -> bool): (r: Option<nat>)
    ensures r.None? <==> forall i :: 0 <= i < |rows| ==> !p(rows[i])
    ensures r.Some? ==> r.value < |rows| && p(rows[r.value])
    ensures r.Some? ==> forall i :: 0 <= i < r.value ==> !p(rows[i])
    decreases |rows|
  {
    if |rows| == 0 then None
    else if p(rows[0]) then Some(0)
    else
      match FirstIndex(rows[1..], p)
      case None => None
      case Some(k) => Some(k + 1)
  }

  /** `User.query.filter_by(username=...).first()`: the first user with that name. */
  function FindUser(users: seq<User>, username: string): (r: Option<nat>)
    ensures r.None? <==> forall i :: 0 <= i < |users| ==> users[i].username != username
    ensures r.Some? ==> r.value < |users| && users[r.value].username == username
    ensures r.Some? ==> forall i :: 0 <= i < r.value ==> users[i].username != username
  {
    FirstIndex(users, (u: User) => u.username == username)
  }

  /** `Client.query.filter_by(name=...).first()`: the first client with that name. */
  function FindClient(clients: seq<Client>, name: string): (r: Option<nat>)
    ensures r.None? <==> forall i :: 0 <= i < |clients| ==> clients[i].name != name
    ensures r.Some? ==> r.value < |clients| && clients[r.value].name == name
    ensures r.Some? ==> forall i :: 0 <= i < r.value ==> clients[i].name != name
  {
    FirstIndex(clients, (c: Client) => c.name == name)
  }

  /** Adding a user under another name does not change which row a name lookup finds. */
  lemma FindUserAppendOther(users: seq<User>, u: User, username: string)
    requires u.username != username
    ensures FindUser(users + [u], username) == FindUser(users, username)
  {
    var s := users + [u];
    assert forall i :: 0 <= i < |users| ==> s[i] == users[i];
  }

  ghost predicate UniqueUsernames(users: seq<User>) {
    forall i, j :: 0 <= i < j < |users| ==> users[i].username != users[j].username
  }

  ghost predicate UniqueClientNames(clients: seq<Client>) {
    forall i, j :: 0 <= i < j < |clients| ==> clients[i].name != clients[j].name
  }

  /** A stored password as `create_user` writes it: a 5-character alphanumeric salt, `|`, a hash. */
  ghost predicate StoredPasswordOk(password: string) {
    |password| > SALT_LEN && IsAlnum(password[..SALT_LEN]) &&
    password[SALT_LEN] == '|' && '|' !in password[SALT_LEN + 1..]
  }

  /** A password of that shape splits into exactly the salt and the hash. */
  lemma StoredPasswordSplits(password: string)
    ensures StoredPasswordOk(password) ==>
      Split(password, '|') == [password[..SALT_LEN], password[SALT_LEN + 1..]]
  {
    if StoredPasswordOk(password) {
      AlnumHasNoBar(password[..SALT_LEN]);
      assert password == Join([password[..SALT_LEN], password[SALT_LEN + 1..]], '|');
      SplitJoin([password[..SALT_LEN], password[SALT_LEN + 1..]], '|');
    }
  }

  /** The User table's constraints, and what every row `create_user` writes looks like. */
  ghost predicate UsersOk(users: seq<User>) {
    UniqueUsernames(users) &&
    forall i :: 0 <= i < |users| ==>
      users[i].id == i + 1 &&
      StoredPasswordOk(users[i].password) &&
      |users[i].apiKey| == KEY_LEN && IsAlnum(users[i].apiKey)
  }

  ghost predicate ClientsOk(clients: seq<Client>) {
    UniqueClientNames(clients) &&
    forall i :: 0 <= i < |clients| ==> clients[i].id == i + 1
  }

  /** Every ad refers to an existing client (ids start at 1). */
  ghost predicate AdsOk(ads: seq<Ad>, clientCount: nat) {
    forall i :: 0 <= i < |ads| ==> ads[i].id == i + 1 && 1 <= ads[i].clientId <= clientCount
  }

  // ---------------------------------------------------------------- passwords

  /** The stored form of a password: `salt + "|" + sha1(salt + password)`. */
  function HashPassword(sha1: string -> Digest, salt: string, password: string): (stored: string) {
    salt + "|" + sha1(salt + password)
  }

  /**
   * A stored password splits back into exactly its salt and its hash whenever
   * the salt holds no `|`, which a generated salt never does.
   */
  lemma HashPasswordSplits(sha1: string -> Digest, salt: string, password: string)
    ensures '|' !in salt ==> Split(HashPassword(sha1, salt, password), '|') == [salt, sha1(salt + password)]
    ensures |salt| == SALT_LEN && IsAlnum(salt) ==> StoredPasswordOk(HashPassword(sha1, salt, password))
  {
    if IsAlnum(salt) {
      AlnumHasNoBar(salt);
    }
    if '|' !in salt {
      DigestHasNoBar(sha1(salt + password));
      SplitJoin([salt, sha1(salt + password)], '|');
    }
    var stored := HashPassword(sha1, salt, password);
    if |salt| == SALT_LEN {
      assert stored[..SALT_LEN] == salt && stored[SALT_LEN + 1..] == sha1(salt + password);
    }
  }

  /** The `ValueError` raised when a stored password does not split into exactly two parts. */
  datatype UnpackError = UnpackError

  /**
   * `validate_user`: look the user up, split the stored password on `|`
   * into salt and hash, and compare the hash of `salt + password`.
   */
  function ValidateUser(sha1: string -> Digest, users: seq<User>, username: string, password: string)
    : (r: Result<bool, UnpackError>)
    ensures (forall i :: 0 <= i < |users| ==> users[i].username != username) ==> r == Ok(false)
    ensures (forall i :: 0 <= i < |users| ==> StoredPasswordOk(users[i].password)) ==> r.Ok?
    ensures r == Ok(true) ==> exists i :: 0 <= i < |users| && users[i].username == username
    ensures FindUser(users, username).Some? ==>
      var parts := Split(users[FindUser(users, username).value].password, '|');
      r == if |parts| == 2 then Ok(sha1(parts[0] + password) == parts[1]) else Err(UnpackError)
  {
    match FindUser(users, username)
    case None => Ok(false)
    case Some(i) =>
      StoredPasswordSplits(users[i].password);
      var parts := Split(users[i].password, '|');
      if |parts| != 2 then Err(UnpackError)
      else Ok(sha1(parts[0] + password) == parts[1])
  }

  /** `user_is_admin`: the admin flag of the user found by name; false for an unknown name. */
  function UserIsAdmin(users: seq<User>, username: string): (r: bool)
    ensures r ==> exists i :: 0 <= i < |users| && users[i].username == username && users[i].isAdmin
    ensures UniqueUsernames(users) ==>
      (r <==> exists i :: 0 <= i < |users| && users[i].username == username && users[i].isAdmin)
  {
    match FindUser(users, username)
    case None => false
    case Some(i) => users[i].isAdmin
  }

  /** `valid_key`: some user holds this API key (keys are not declared unique). */
  function ValidKey(users: seq<User>, apiKey: string): (r: bool)
    ensures r <==> exists i :: 0 <= i < |users| && users[i].apiKey == apiKey
  {
    FirstIndex(users, (u: User) => u.apiKey == apiKey).Some?
  }

  /** The row `create_user` appends. */
  function NewUser(sha1: string -> Digest, id: nat, username: string, password: string,
                   email: string, isAdmin: bool, salt: string, apiKey: string): (u: User)
    ensures u.username == username && u.isAdmin == isAdmin && u.apiKey == apiKey
    ensures '|' !in salt ==> Split(u.password, '|') == [salt, sha1(salt + password)]
    ensures |salt| == SALT_LEN && IsAlnum(salt) ==> StoredPasswordOk(u.password)
  {
    HashPasswordSplits(sha1, salt, password);
    User(id, username, HashPassword(sha1, salt, password), apiKey, isAdmin, email)
  }

  /** `create_user`'s row keeps the User table's constraints when the name is free. */
  lemma NewUserOk(sha1: string -> Digest, users: seq<User>, username: string, password: string,
                  email: string, isAdmin: bool, salt: string, apiKey: string)
    requires UsersOk(users)
    requires FindUser(users, username).None?
    requires |salt| == SALT_LEN && IsAlnum(salt)
    requires |apiKey| == KEY_LEN && IsAlnum(apiKey)
    ensures UsersOk(users + [NewUser(sha1, |users| + 1, username, password, email, isAdmin, salt, apiKey)])
  {
    var u := NewUser(sha1, |users| + 1, username, password, email, isAdmin, salt, apiKey);
    var s := users + [u];
    assert forall i :: 0 <= i < |users| ==> s[i] == users[i];
  }

  /** A user's password check is not affected by adding a user under another name. */
  lemma ValidateAfterOtherCreate(sha1: string -> Digest, users: seq<User>, u: User, username: string, password: string)
    requires u.username != username
    ensures ValidateUser(sha1, users + [u], username, password) == ValidateUser(sha1, users, username, password)
    ensures UserIsAdmin(users + [u], username) == UserIsAdmin(users, username)
  {
    FindUserAppendOther(users, u, username);
    var s := users + [u];
    match FindUser(users, username)
    case None =>
    case Some(i) => assert s[i] == users[i];
  }

  /**
   * After a successful `create_user(username, password)`, `validate_user(username, q)`
   * succeeds and answers whether `q` hashes, with the stored salt, like `password`;
   * in particular it answers true for `password` itself.
   */
  lemma ValidateAfterCreate(sha1: string -> Digest, users: seq<User>, username: string, password: string,
                            email: string, isAdmin: bool, salt: string, apiKey: string, q: string)
    requires FindUser(users, username).None?
    requires IsAlnum(salt)
    ensures ValidateUser(sha1, users + [NewUser(sha1, |users| + 1, username, password, email, isAdmin, salt, apiKey)], username, q)
            == Ok(sha1(salt + q) == sha1(salt + password))
    ensures ValidateUser(sha1, users + [NewUser(sha1, |users| + 1, username, password, email, isAdmin, salt, apiKey)], username, password)
            == Ok(true)
  {
    var u := NewUser(sha1, |users| + 1, username, password, email, isAdmin, salt, apiKey);
    AlnumHasNoBar(salt);
    HashPasswordSplits(sha1, salt, password);
    FindAfterAppend(users, u, username);
  }

  /** Appending a user whose name was free makes that row the one found by name. */
  lemma FindAfterAppend(users: seq<User>, u: User, username: string)
    requires FindUser(users, username).None? && u.username == username
    ensures FindUser(users + [u], username) == Some(|users|)
  {
    var s := users + [u];
    var r := FindUser(s, username);
    assert s[|users|].username == username;
    assert forall i :: 0 <= i < |users| ==> s[i].username != username by {
      forall i | 0 <= i < |users| ensures s[i].username != username {
        assert s[i] == users[i];
      }
    }
  }

  /** After a successful `create_user`, `user_is_admin` reports the flag it was given. */
  lemma UserIsAdminAfterCreate(users: seq<User>, u: User)
    requires FindUser(users, u.username).None?
    ensures UserIsAdmin(users + [u], u.username) == u.isAdmin
  {
    FindAfterAppend(users, u, u.username);
  }

  // ---------------------------------------------------------------- proximity query

  /** The ad lies within `threshold` metres of `location`. */
  predicate InRange(distance: (Location, Location) -> real, location: Location, threshold: real, ad: Ad) {
    distance(location, ad.Position()) <= threshold
  }

  /** What the scan does to one ad: one more view when it is in range, nothing else. */
  function Visit(distance: (Location, Location) -> real, location: Location, threshold: real, ad: Ad): (r: Ad)
    ensures r.views == ad.views + (if InRange(distance, location, threshold, ad) then 1 else 0)
    ensures r == ad.(views := r.views)
  {
    if InRange(distance, location, threshold, ad) then ad.(views := ad.views + 1) else ad
  }

  /** The positions of the in-range ads, in table order. */
  function Nearby(distance: (Location, Location) -> real, location: Location, threshold: real, ads: seq<Ad>)
    : (r: seq<Location>)
    ensures |r| <= |ads|
    decreases |ads|
  {
    if ads == [] then []
    else
      var last := ads[|ads| - 1];
      Nearby(distance, location, threshold, ads[..|ads| - 1])
        + (if InRange(distance, location, threshold, last) then [last.Position()] else [])
  }

  /** The ad table after one query. */
  function Bumped(distance: (Location, Location) -> real, location: Location, threshold: real, ads: seq<Ad>)
    : (r: seq<Ad>)
    ensures |r| == |ads|
    decreases |ads|
  {
    if ads == [] then []
    else Bumped(distance, location, threshold, ads[..|ads| - 1]) + [Visit(distance, location, threshold, ads[|ads| - 1])]
  }

  /** The query distributes over a split of the table: results keep table order. */
  lemma {:induction false} NearbyAppend(distance: (Location, Location) -> real, location: Location, threshold: real,
                                         a: seq<Ad>, b: seq<Ad>)
    ensures Nearby(distance, location, threshold, a + b)
            == Nearby(distance, location, threshold, a) + Nearby(distance, location, threshold, b)
    decreases |b|
  {
    if b == [] {
      assert a + b == a;
    } else {
      var b' := b[..|b| - 1];
      assert (a + b)[..|a + b| - 1] == a + b';
      NearbyAppend(distance, location, threshold, a, b');
    }
  }

  /** One ad contributes its position exactly when it is in range. */
  lemma NearbySingle(distance: (Location, Location) -> real, location: Location, threshold: real, ad: Ad)
    ensures Nearby(distance, location, threshold, [ad])
            == if InRange(distance, location, threshold, ad) then [ad.Position()] else []
  {
    assert [ad][..0] == [];
  }

  /** A position is returned iff some in-range ad stands there. */
  lemma {:induction false} NearbyMember(distance: (Location, Location) -> real, location: Location, threshold: real,
                                         ads: seq<Ad>, x: Location)
    ensures x in Nearby(distance, location, threshold, ads)
            <==> exists i :: 0 <= i < |ads| && InRange(distance, location, threshold, ads[i]) && ads[i].Position() == x
    decreases |ads|
  {
    if ads != [] {
      var init := ads[..|ads| - 1];
      NearbyMember(distance, location, threshold, init, x);
      if exists i :: 0 <= i < |ads| && InRange(distance, location, threshold, ads[i]) && ads[i].Position() == x {
        var i :| 0 <= i < |ads| && InRange(distance, location, threshold, ads[i]) && ads[i].Position() == x;
        if i < |ads| - 1 {
          assert init[i] == ads[i];
        }
      }
      if exists i :: 0 <= i < |init| && InRange(distance, location, threshold, init[i]) && init[i].Position() == x {
        var i :| 0 <= i < |init| && InRange(distance, location, threshold, init[i]) && init[i].Position() == x;
        assert ads[i] == init[i];
      }
    }
  }

  /**
   * With a zero threshold and a distance that is zero exactly between equal
   * points, the query returns the request's own location if some ad stands
   * exactly there, and nothing else.
   */
  lemma NearbyZeroThreshold(distance: (Location, Location) -> real, location: Location, ads: seq<Ad>, x: Location)
    requires forall p, q :: distance(p, q) >= 0.0 && (distance(p, q) == 0.0 <==> p == q)
    ensures x in Nearby(distance, location, 0.0, ads)
            <==> x == location && exists i :: 0 <= i < |ads| && ads[i].Position() == location
  {
    NearbyMember(distance, location, 0.0, ads, x);
  }

  /** After a query, the ad at position `k` has been visited once, and nothing else moved. */
  lemma {:induction false} BumpedAt(distance: (Location, Location) -> real, location: Location, threshold: real,
                                     ads: seq<Ad>, k: nat)
    requires k < |ads|
    ensures Bumped(distance, location, threshold, ads)[k] == Visit(distance, location, threshold, ads[k])
    decreases |ads|
  {
    if k < |ads| - 1 {
      BumpedAt(distance, location, threshold, ads[..|ads| - 1], k);
    }
  }

  /** One more ad scanned: the query's result grows by that ad's share. */
  lemma ScanStep(distance: (Location, Location) -> real, location: Location, threshold: real,
                 ads: seq<Ad>, i: nat, closest: seq<Location>)
    requires i < |ads|
    requires closest == Nearby(distance, location, threshold, ads[..i])
    ensures InRange(distance, location, threshold, ads[i]) ==>
      closest + [ads[i].Position()] == Nearby(distance, location, threshold, ads[..i + 1])
    ensures !InRange(distance, location, threshold, ads[i]) ==>
      closest == Nearby(distance, location, threshold, ads[..i + 1])
  {
    assert ads[..i + 1][..i] == ads[..i];
  }

  /** A table whose every ad is the matching ad of `ads` visited once is `Bumped(ads)`. */
  lemma BumpedPointwise(distance: (Location, Location) -> real, location: Location, threshold: real,
                        ads: seq<Ad>, after: seq<Ad>)
    requires |after| == |ads|
    requires forall k :: 0 <= k < |ads| ==> after[k] == Visit(distance, location, threshold, ads[k])
    ensures after == Bumped(distance, location, threshold, ads)
  {
    forall k | 0 <= k < |ads|
      ensures after[k] == Bumped(distance, location, threshold, ads)[k]
    {
      BumpedAt(distance, location, threshold, ads, k);
    }
  }

  /** A scan changes only view counts, so it keeps every ad's id and owner. */
  lemma BumpedKeepsRows(distance: (Location, Location) -> real, location: Location, threshold: real,
                        ads: seq<Ad>, clientCount: nat)
    requires AdsOk(ads, clientCount)
    ensures AdsOk(Bumped(distance, location, threshold, ads), clientCount)
  {
    forall k | 0 <= k < |ads|
      ensures Bumped(distance, location, threshold, ads)[k] == Visit(distance, location, threshold, ads[k])
    {
      BumpedAt(distance, location, threshold, ads, k);
    }
  }

  // ---------------------------------------------------------------- the store

  /**
   * The in-memory store behind `db.session`. Each create either appends exactly
   * one row or fails and leaves every table as it was.
   */
  class Database {
    const sha1: string -> Digest
    const distance: (Location, Location) -> real
    var users: seq<User>
    var clients: seq<Client>
    var ads: seq<Ad>

    /** The store invariant: each table's constraints, with ads pointing at existing clients. */
    ghost predicate Valid()
      reads this
    {
      UsersValid() && ClientsValid() && AdsOk(ads, |clients|)
    }

    ghost predicate UsersValid()
      reads this`users
    {
      UsersOk(users)
    }

    ghost predicate ClientsValid()
      reads this`clients
    {
      ClientsOk(clients)
    }

    constructor (sha1: string -> Digest, distance: (Location, Location) -> real)
      ensures Valid()
      ensures this.sha1 == sha1 && this.distance == distance
      ensures users == [] && clients == [] && ads == []
    {
      this.sha1 := sha1;
      this.distance := distance;
      users, clients, ads := [], [], [];
    }

    /**
     * `create_user`: `salt` and `apiKey` are the values drawn at random by the
     * source. Fails, changing nothing, when the username is taken.
     */
    method CreateUser(username: string, password: string, email: string, isAdmin: bool,
                      salt: string, apiKey: string) returns (ok: bool)
      requires Valid()
      requires |salt| == SALT_LEN && IsAlnum(salt)
      requires |apiKey| == KEY_LEN && IsAlnum(apiKey)
      modifies this`users
      ensures Valid()
      ensures ok <==> forall i :: 0 <= i < |old(users)| ==> old(users)[i].username != username
      ensures users == if ok then old(users) + [NewUser(sha1, |old(users)| + 1, username, password, email, isAdmin, salt, apiKey)]
                       else old(users)
      ensures clients == old(clients) && ads == old(ads)
    {
      if FindUser(users, username).Some? {
        return false;
      }
      NewUserOk(sha1, users, username, password, email, isAdmin, salt, apiKey);
      var user := NewUser(sha1, |users| + 1, username, password, email, isAdmin, salt, apiKey);
      users := users + [user];
      ok := true;
    }

    /** `create_client`: fails, changing nothing, when the name is taken; the type is not checked here. */
    method CreateClient(name: string, clientType: string, balance: real) returns (ok: bool)
      requires Valid()
      modifies this`clients
      ensures Valid()
      ensures ok <==> forall i :: 0 <= i < |old(clients)| ==> old(clients)[i].name != name
      ensures clients == if ok then old(clients) + [Client(|old(clients)| + 1, name, clientType, balance)]
                         else old(clients)
      ensures users == old(users) && ads == old(ads)
    {
      if FindClient(clients, name).Some? {
        return false;
      }
      clients := clients + [Client(|clients| + 1, name, clientType, balance)];
      ok := true;
    }

    /**
     * `create_ad`: resolves the client by name; with no such client it fails and
     * adds nothing, otherwise it appends one ad owned by that client, with no
     * views and no clicks yet.
     */
    method CreateAd(name: string, clientName: string, latitude: real, longitude: real, height: real,
                    category: string, adType: string, data: Option<Bytes>) returns (ok: bool)
      requires Valid()
      modifies this`ads
      ensures Valid()
      ensures ok <==> exists i :: 0 <= i < |clients| && clients[i].name == clientName
      ensures !ok ==> ads == old(ads)
      ensures ok ==> exists c :: 0 <= c < |clients| && clients[c].name == clientName &&
                       ads == old(ads) + [Ad(|old(ads)| + 1, name, clients[c].id, category, latitude, longitude,
                                             height, 0, 0, adType, data)]
      ensures users == old(users) && clients == old(clients)
    {
      var found := FindClient(clients, clientName);
      if found.None? {
        return false;
      }
      var client := clients[found.value];
      ads := ads + [Ad(|ads| + 1, name, client.id, category, latitude, longitude, height, 0, 0, adType, data)];
      ok := true;
    }

    function ListUsers(): (r: seq<User>)
      reads this
      requires Valid()
      ensures r == users
      ensures forall i, j :: 0 <= i < j < |r| ==> r[i].username != r[j].username
    {
      users
    }

    function ListClients(): (r: seq<Client>)
      reads this
      requires Valid()
      ensures r == clients
      ensures forall i, j :: 0 <= i < j < |r| ==> r[i].name != r[j].name
    {
      clients
    }

    function ListAds(): (r: seq<Ad>)
      reads this
      requires Valid()
      ensures r == ads
      ensures forall i :: 0 <= i < |r| ==> 1 <= r[i].clientId <= |clients| && clients[r[i].clientId - 1].id == r[i].clientId
    {
      ads
    }

    /**
     * `get_closest_ads`: scans the ads in table order, collects the position of
     * each one within `threshold` of `location` and counts one more view on it.
     */
    method GetClosestAds(location: Location, threshold: real) returns (closest: seq<Location>)
      requires Valid()
      modifies this`ads
      ensures Valid()
      ensures closest == Nearby(distance, location, threshold, old(ads))
      ensures ads == Bumped(distance, location, threshold, old(ads))
      ensures users == old(users) && clients == old(clients)
    {
      ghost var original := ads;
      closest := [];
      var i := 0;
      while i < |ads|
        invariant |ads| == |original| && 0 <= i <= |ads|
        invariant closest == Nearby(distance, location, threshold, original[..i])
        invariant forall k :: 0 <= k < i ==> ads[k] == Visit(distance, location, threshold, original[k])
        invariant forall k :: i <= k < |ads| ==> ads[k] == original[k]
      {
        ScanStep(distance, location, threshold, original, i, closest);
        var ad := ads[i];
        var adLocation := (ad.latitude, ad.longitude);
        assert ad == original[i] && adLocation == original[i].Position();
        if distance(location, adLocation) <= threshold {
          closest := closest + [adLocation];
          ads := ads[i := ad.(views := ad.views + 1)];
        }
        i := i + 1;
      }
      assert original[..i] == original;
      BumpedPointwise(distance, location, threshold, original, ads);
      BumpedKeepsRows(distance, location, threshold, original, |clients|);
    }
  }
}
