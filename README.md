# arado-backend: a Dafny model of the ad store and its request guards

arado-backend is a small location-aware advertisement service. Administrators
create users, advertising clients and ads. Phones ask for the ads within 50
metres of a position, and every ad shown gets one more view.

This project models the part of the service that makes decisions:

- **The store** (`db_connection.py`). It holds three tables: users, clients
  and ads.
  - `create_user`, `create_client` and `create_ad` either append exactly one
    row or fail and change nothing.
  - `validate_user` splits the stored `salt|hash` password and re-hashes.
  - `user_is_admin` and `valid_key` are lookups.
  - `get_closest_ads` scans the ads in table order. It returns the position
    of each ad within the threshold and adds one view to exactly those ads.
- **The web layer's decisions** (`app.py`):
  - the bearer-token slice, with its quirk (see below);
  - `verify_pw`;
  - the form-then-JSON coordinate fallback;
  - the guards that decide whether `/new_client`, `/new_user` and `/new_ad`
    reach the store at all.

Files:

- `Wrappers.dfy`: `Option` and `Result`.
- `Strings.dfy`: Python's `str.find`, `str.split` on a one-character
  separator and its inverse `Join`, `s[k:]`, and the alphanumeric alphabet.
- `Records.dfy`: the `User`, `Client` and `Ad` rows, plus `KEY_LEN`,
  `SALT_LEN` and the 40-character hex `Digest`.
- `Db.dfy`:
  - the lookups;
  - the specification of the scan (`Nearby`, `Bumped`) and the lemmas about it;
  - the `Database` class. Its fields are the three tables. Its methods
    are the create operations and the scan loop.
- `App.dfy`: the token slice, `VerifyPw`, `Coordinates` and the four
  handlers. Each handler is a method over a `Database` that returns the
  response it would render.

`Database.Valid()` is the store invariant:

- usernames and client names are unique;
- ids are 1, 2, 3, … in table order;
- every ad refers to an existing client;
- every stored password is a 5-character alphanumeric salt, `|`, and a hash;
- every API key is 40 alphanumeric characters.

Every method keeps this invariant.

SHA-1 and the geodesic distance come from libraries that are not part of this
model. A `Database` is built around both, given as functions:

- `sha1: string -> Digest`. Its only assumed property is that it returns 40
  lower-case hex characters, so it never produces a `|`.
- `distance: (Location, Location) -> real`. The model treats it as a total
  function: every call returns a distance. Only `NearbyZeroThreshold` assumes
  anything more of it, and it states what. The library call can raise instead
  (see "Left out").

The random salt and API key of `create_user` are passed in as parameters,
with preconditions on their length and alphabet.

A header without `"Bearer "` is not refused at app.py:37, because the code
never checks for that substring:

- `find` then returns -1, so the token is `header[6:]`;
- that token still goes to `valid_key`.

So `<any six characters without a space><a valid key>` authenticates. This
is stated in `App.TokenWithoutBearer`.

## Model

| member | source | states |
|---|---|---|
| `Strings.Find` | app.py:37 | `str.find`: -1 iff the pattern occurs nowhere; otherwise an occurrence with none before it |
| `Strings.SliceFrom` | app.py:37 | Python `s[k:]`: the suffix after `k` characters, empty once `k` passes the end |
| `Strings.Split` | db_connection.py:88 | splitting on the bar character gives at least one part, no part holds the separator, and joining the parts gives back the input |
| `Strings.Join` | db_connection.py:88 | the inverse of `split`: the text starts with the first part |
| `Strings.JoinSeparatorCount` | db_connection.py:88 | joining n parts without the separator puts exactly n - 1 separators in the text |
| `Strings.SplitJoin` | db_connection.py:83-89 | splitting a join of separator-free parts recovers exactly those parts (the inverse of `Split`) |
| `Strings.OccursAtIndex` | app.py:37 | each character of a found occurrence equals the pattern's character |
| `Records.DigestHasNoBar` | db_connection.py:12-13 | a SHA-1 hex digest never contains a bar character |
| `Records.AlnumHasNoBar` | db_connection.py:15-17 | a salt or key drawn from letters and digits never contains a bar character |
| `Db.FirstIndex` | db_connection.py:77 | `filter_by(...).first()`: none iff no row matches; otherwise a matching row with no match before it |
| `Db.FindUser` | db_connection.py:77 | the username lookup of lines 77 and 84: none iff no user has the name; otherwise a user with that name and none before it |
| `Db.FindClient` | db_connection.py:112 | the client-name lookup: none iff no client has the name; otherwise a client with that name and none before it |
| `Db.FindUserAppendOther` | db_connection.py:65-77 | adding a user under another name leaves the row a name lookup finds unchanged |
| `Db.StoredPasswordSplits` | db_connection.py:87-88 | a stored password of the salt-bar-hash shape splits into exactly the salt and the hash, so the two-name unpacking succeeds |
| `Db.HashPasswordSplits` | db_connection.py:64 | `HashPassword`, the stored salt, a bar, then `sha1(salt + password)`, splits back into exactly the salt and the hash when the salt has no bar; with a 5-character alphanumeric salt it has the salt-bar-hash shape |
| `Db.ValidateUser` | db_connection.py:83-89 | false for an unknown username; for a known one, the first user with that name: its password split on the bar must give two parts, else the unpacking error, and the result is whether `sha1(part0 + password)` equals part 1; never raises when every stored password has the salt-bar-hash shape |
| `Db.UserIsAdmin` | db_connection.py:76-80 | true only if a user with that name is an admin; with unique usernames, exactly when one is |
| `Db.ValidKey` | db_connection.py:92-96 | true iff some user holds the key (keys are not assumed unique) |
| `Db.NewUser` | db_connection.py:65-66 | the row `create_user` builds carries the given username, admin flag and key, and its password splits into the salt and `sha1(salt + password)` |
| `Db.NewUserOk` | db_connection.py:61-73 | appending that row with the next id under a free name keeps the user table's constraints |
| `Db.ValidateAfterOtherCreate` | db_connection.py:61-89 | a user's password check and admin flag are unchanged when another user, under a different name, is created later |
| `Db.ValidateAfterCreate` | db_connection.py:61-89 | after `create_user(u, p)` appends its row, `validate_user(u, q)` returns whether `sha1(salt + q) == sha1(salt + p)`, and so true for `q = p` |
| `Db.FindAfterAppend` | db_connection.py:65-77 | after a user is added under a name that was free, the lookup by that name finds the new row |
| `Db.UserIsAdminAfterCreate` | db_connection.py:61-80 | after `create_user`, `user_is_admin` reports the flag it was given |
| `Db.InRange` | db_connection.py:142 | an ad is in range iff its distance from the request's location is at most the threshold, the bound included |
| `Db.Visit` | db_connection.py:141-144 | one ad after the scan: one more view iff in range, every other field unchanged |
| `Db.Nearby` | db_connection.py:138-146 | the query's result has at most one position per ad |
| `Db.Bumped` | db_connection.py:138-146 | the scan keeps the number of ads |
| `Db.NearbyAppend` | db_connection.py:140-143 | the result over a split table is the result over the first part followed by the second: results keep table order |
| `Db.NearbySingle` | db_connection.py:141-143 | one ad contributes its (latitude, longitude) iff its distance is at most the threshold |
| `Db.NearbyMember` | db_connection.py:138-146 | a position is returned iff some in-range ad stands there |
| `Db.NearbyZeroThreshold` | db_connection.py:142 | with threshold 0 and a distance that is zero exactly between equal points, only the request's own location is returned, and only if some ad stands there |
| `Db.BumpedAt` | db_connection.py:144 | after the scan, ad `k` is ad `k` visited once: views + 1 iff in range, nothing else changed |
| `Db.ScanStep` | db_connection.py:140-143 | scanning one more ad appends that ad's position to the result iff it is in range, and leaves the result as it was otherwise |
| `Db.BumpedPointwise` | db_connection.py:140-144 | a table of the same length in which every ad is the old ad visited once is exactly the scanned table |
| `Db.BumpedKeepsRows` | db_connection.py:144 | the scan keeps every ad's id and owner, so every ad still refers to an existing client |
| `Db.Database.Valid` | db_connection.py:29-58 | the store invariant: unique usernames and client names, ids 1, 2, 3, … in table order, salt-bar-hash passwords, 40-character alphanumeric keys, and ads owned by existing clients |
| `Db.Database.constructor` | db_connection.py:26-58 | an empty store satisfies the table constraints |
| `Db.Database.CreateUser` | db_connection.py:61-73 | fails iff the username is taken, leaving every table unchanged; otherwise appends exactly one user with the next id and the salt-bar-hash password |
| `Db.Database.CreateClient` | db_connection.py:99-107 | fails iff the name is taken, leaving every table unchanged; otherwise appends exactly one client with the next id |
| `Db.Database.CreateAd` | db_connection.py:110-124 | fails iff no client has that name, adding no ad; otherwise appends one ad owned by that client, with 0 views and 0 clicks |
| `Db.Database.ListUsers` | db_connection.py:134-135 | the whole user table, names distinct |
| `Db.Database.ListClients` | db_connection.py:131-132 | the whole client table, names distinct |
| `Db.Database.ListAds` | db_connection.py:127-128 | the whole ad table, each ad owned by an existing client |
| `Db.Database.GetClosestAds` | db_connection.py:138-146 | returns `Nearby` of the old ads and leaves the ad table as `Bumped` of it; users and clients unchanged |
| `App.Token` | app.py:37 | with `"Bearer "` present, the header is the text before its first occurrence, then `"Bearer "`, then the token; without it, the token is `header[6:]` |
| `App.TokenOfBearerHeader` | app.py:37 | `"Bearer " + key` yields `key` |
| `App.TokenWithoutBearer` | app.py:37-38 | any six-character prefix without a space, followed by an alphanumeric key, yields that key, so the request is not rejected |
| `App.VerifyPw` | app.py:58-61 | `Ok(true)` iff the password validates and the user is an admin; an error from `validate_user` propagates |
| `App.VerifyPwAfterCreate` | app.py:58-61 | a freshly created user passes the admin login with its own password iff it was created as an admin |
| `App.Coordinates` | app.py:41-53 | form values when both parse; otherwise, when a body was sent, the body's values, which replace a valid form value; otherwise invalid |
| `App.GetAdsLocation` | app.py:31-56 | a missing header, an invalid token or invalid coordinates give the matching error with the ad table unchanged; otherwise the ads response and the bumped table |
| `App.InsertClient` | app.py:91-108 | store changes only for an admin, a type in paid/trial/demo and a free name; the error page says which guard failed |
| `App.InsertUser` | app.py:111-130 | store changes only for an admin, a non-empty password and a free username; the admin flag is the checkbox being "on" |
| `App.InsertAd` | app.py:64-88 | store changes only for an admin, parsed latitude, longitude and height, and an existing client |

## Left out

- Flask routing, templates, redirects, `jsonify` and `app.run`. A handler
  returns the page or JSON value it would render. The GET branches of the
  admin forms only render an empty form and are not modelled.
- The `HTTPBasicAuth` wiring. Its effect, admin-only access through
  `verify_pw`, is modelled as the first guard of each admin handler.
- The list pages and the landing page (app.py:133-158). They only render
  `list_*`, which are modelled.
- SQLAlchemy sessions, commits and `IntegrityError`. A failed insert is
  modelled as "nothing changes".
  - The source never calls `session.rollback()` after an `IntegrityError`, so
    the next use of the session raises. The model does not capture this and
    treats the store as usable afterwards.
  - The `IntegrityError` branch of `create_ad` cannot arise in the model:
    every non-null column is always supplied, and no ad column is unique.
- Ids. The store is SQLite (app.py:25). Rows are never deleted, so a new id
  is one more than the number of rows. The model assumes a store that starts
  empty.
- SHA-1 (db_connection.py:12-13) is a parameter. No lemma claims that a wrong
  password is rejected, because that would rest on collision resistance.
- `geopy`'s `vincenty` (db_connection.py:7, 142) is a floating-point library
  call and is a parameter. The zero-threshold property is proved only under an
  assumption about the distance, stated in `NearbyZeroThreshold`.
- A raising distance call. `vincenty` can raise `ValueError`, for example
  when it fails to converge between nearly antipodal points, and neither
  coordinate is ever range-checked. Each match is committed at once
  (db_connection.py:145), so an exception in the middle of a scan leaves the
  view increments of the ads already matched in the table. The model's
  distance always returns, so `GetClosestAds` always completes the scan.
- `random.choices` (db_connection.py:15-23) is not modelled. The salt and API
  key are parameters with their length and alphabet as preconditions.
- `to_float` (app.py:11-18): float parsing and NaN. Parsed values arrive as
  `Option<real>`.
- Floating point in general: latitude, longitude, height and balance are
  mathematical reals.
- `json.loads` (app.py:47). A malformed body, or a body that is not a JSON
  object, raises and is outside the model. A sent body arrives as the
  `to_float` results of its two entries.
- The lost update on `ad.views` between concurrent queries. The model is
  sequential.
- Column length limits (`String(80)`). SQLite does not enforce them.
