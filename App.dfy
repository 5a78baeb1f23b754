/**
 * The decisions the web layer makes around the store: bearer-token extraction,
 * admin password check, coordinate parsing fallback, and the input guards of
 * the admin forms. Routing, templates and JSON encoding are not modelled; a
 * handler returns the response it would render.
 */
module App {
  import opened Wrappers
  import opened Strings
  import opened Records
  import opened Db

  /** `DIST_TH`: an ad is shown to requests within 50 metres of it. */
  const DIST_TH: real := 50.0

  const BEARER: string := "Bearer "

  const INVALID_AUTHENTICATION: string := "Invalid authentication"
  const INVALID_COORDINATES: string := "Invalid coordinates"

  // ---------------------------------------------------------------- bearer token

  /**
   * `auth[auth.find("Bearer ") + len("Bearer "):]`: the text after the first
   * "Bearer ". When the header holds no "Bearer ", `find` gives -1 and the
   * slice starts at index 6; the request is not rejected for it.
   */
  function Token(header: string): (token: string)
    ensures Find(header, BEARER) >= 0 ==>
      header == header[..Find(header, BEARER)] + BEARER + token
    ensures Find(header, BEARER) == -1 ==> token == SliceFrom(header, 6)
  {
    var k := Find(header, BEARER);
    if k >= 0 then
      assert header[k..k + |BEARER|] == BEARER;
      assert header == header[..k] + header[k..k + |BEARER|] + header[k + |BEARER|..];
      SliceFrom(header, k + |BEARER|)
    else
      SliceFrom(header, k + |BEARER|)
  }

  /** A well-formed header yields exactly the key that follows "Bearer ". */
  lemma TokenOfBearerHeader(key: string)
    ensures Token(BEARER + key) == key
  {
    assert OccursAt(BEARER + key, BEARER, 0);
  }

  /**
   * With no "Bearer " anywhere, the first six characters are dropped whatever
   * they are: any six-character prefix without a space, followed by a valid
   * alphanumeric key, authenticates as that key.
   */
  lemma TokenWithoutBearer(prefix: string, key: string)
    requires |prefix| == 6 && ' ' !in prefix
    requires IsAlnum(key)
    ensures Token(prefix + key) == key
  {
    var header := prefix + key;
    assert ' ' !in header by {
      forall j | 6 <= j < |header| ensures header[j] != ' ' {
        assert header[j] == key[j - 6] && IsAlnumChar(key[j - 6]);
      }
    }
    forall i ensures !OccursAt(header, BEARER, i) {
      if OccursAt(header, BEARER, i) {
        OccursAtIndex(header, BEARER, i, 6);
        assert false;
      }
    }
    assert header[6..] == key;
  }

  // ---------------------------------------------------------------- admin login

  /**
   * `verify_pw`: the password validates AND the user is an admin. The
   * admin lookup runs only when the password validated; an `UnpackError`
   * from `validate_user` propagates.
   */
  function VerifyPw(sha1: string -> Digest, users: seq<User>, username: string, password: string)
    : (r: Result<bool, UnpackError>)
    ensures r == Ok(true) <==> ValidateUser(sha1, users, username, password) == Ok(true) && UserIsAdmin(users, username)
    ensures r.Err? <==> ValidateUser(sha1, users, username, password).Err?
  {
    match ValidateUser(sha1, users, username, password)
    case Err(e) => Err(e)
    case Ok(valid) => Ok(valid && UserIsAdmin(users, username))
  }

  /** A freshly created user logs in to the admin pages with its password iff it was made an admin. */
  lemma VerifyPwAfterCreate(sha1: string -> Digest, users: seq<User>, username: string, password: string,
                            email: string, isAdmin: bool, salt: string, apiKey: string)
    requires FindUser(users, username).None?
    requires IsAlnum(salt)
    ensures VerifyPw(sha1, users + [NewUser(sha1, |users| + 1, username, password, email, isAdmin, salt, apiKey)],
                     username, password) == Ok(isAdmin)
  {
    var u := NewUser(sha1, |users| + 1, username, password, email, isAdmin, salt, apiKey);
    ValidateAfterCreate(sha1, users, username, password, email, isAdmin, salt, apiKey, password);
    UserIsAdminAfterCreate(users, u);
  }

  // ---------------------------------------------------------------- coordinates

  /**
   * The JSON body of a request, after `to_float` of its "latitude" and
   * "longitude" entries (None where missing or not a number).
   */
  datatype JsonBody = JsonBody(latitude: Option<real>, longitude: Option<real>)

  /**
   * Form values first; if either is missing and a body was sent, both are
   * re-read from the body, discarding a valid form value. `body` is None
   * when the request carries no data.
   */
  function Coordinates(formLatitude: Option<real>, formLongitude: Option<real>, body: Option<JsonBody>)
    : (r: Option<Location>)
    ensures formLatitude.Some? && formLongitude.Some? ==> r == Some((formLatitude.value, formLongitude.value))
    ensures !(formLatitude.Some? && formLongitude.Some?) && body.None? ==> r.None?
    ensures !(formLatitude.Some? && formLongitude.Some?) && body.Some? ==>
      (r.Some? <==> body.value.latitude.Some? && body.value.longitude.Some?) &&
      (r.Some? ==> r.value == (body.value.latitude.value, body.value.longitude.value))
  {
    if formLatitude.Some? && formLongitude.Some? then
      Some((formLatitude.value, formLongitude.value))
    else if body.None? then
      None
    else if body.value.latitude.Some? && body.value.longitude.Some? then
      Some((body.value.latitude.value, body.value.longitude.value))
    else
      None
  }

  // ---------------------------------------------------------------- handlers

  /** The JSON answer of `/get_ads_location`. */
  datatype ApiResponse = AdsResponse(ads: seq<Location>) | ErrorResponse(error: string)

  /** What an admin form handler answers. */
  datatype Page = Redirect(target: string) | FormPage(error: string) | Unauthorized

  const CLIENT_TYPES: seq<string> := ["paid", "trial", "demo"]

  /**
   * `/get_ads_location`: authenticate by API key, read the coordinates, then
   * run the proximity query. Every refusal leaves the ad table untouched.
   */
  method GetAdsLocation(db: Database, header: Option<string>,
                        formLatitude: Option<real>, formLongitude: Option<real>, body: Option<JsonBody>)
    returns (response: ApiResponse)
    requires db.Valid()
    modifies db`ads
    ensures db.Valid()
    ensures header.None? ==> response == ErrorResponse(INVALID_AUTHENTICATION) && db.ads == old(db.ads)
    ensures header.Some? && !ValidKey(db.users, Token(header.value)) ==>
      response == ErrorResponse(INVALID_AUTHENTICATION) && db.ads == old(db.ads)
    ensures header.Some? && ValidKey(db.users, Token(header.value)) &&
            Coordinates(formLatitude, formLongitude, body).None? ==>
      response == ErrorResponse(INVALID_COORDINATES) && db.ads == old(db.ads)
    ensures header.Some? && ValidKey(db.users, Token(header.value)) &&
            Coordinates(formLatitude, formLongitude, body).Some? ==>
      var location := Coordinates(formLatitude, formLongitude, body).value;
      response == AdsResponse(Nearby(db.distance, location, DIST_TH, old(db.ads))) &&
      db.ads == Bumped(db.distance, location, DIST_TH, old(db.ads))
  {
    if header.None? {
      return ErrorResponse(INVALID_AUTHENTICATION);
    }
    var token := Token(header.value);
    if !ValidKey(db.users, token) {
      return ErrorResponse(INVALID_AUTHENTICATION);
    }
    var location := Coordinates(formLatitude, formLongitude, body);
    if location.None? {
      return ErrorResponse(INVALID_COORDINATES);
    }
    var closest := db.GetClosestAds(location.value, DIST_TH);
    response := AdsResponse(closest);
  }

  /**
   * `/new_client` (POST): admin only; the type must be one of paid, trial,
   * demo before `create_client` runs.
   */
  method InsertClient(db: Database, authUser: string, authPassword: string, clientName: string, clientType: string)
    returns (page: Page)
    requires db.Valid()
    modifies db`clients
    ensures db.Valid()
    ensures VerifyPw(db.sha1, db.users, authUser, authPassword) != Ok(true) ==> page == Unauthorized
    ensures VerifyPw(db.sha1, db.users, authUser, authPassword) == Ok(true) && clientType !in CLIENT_TYPES ==>
      page == FormPage("Invalid type")
    ensures page.Redirect? <==>
      VerifyPw(db.sha1, db.users, authUser, authPassword) == Ok(true) && clientType in CLIENT_TYPES &&
      forall i :: 0 <= i < |old(db.clients)| ==> old(db.clients)[i].name != clientName
    ensures page.Redirect? ==>
      page.target == "/" &&
      db.clients == old(db.clients) + [Client(|old(db.clients)| + 1, clientName, clientType, 0.0)]
    ensures !page.Redirect? ==> db.clients == old(db.clients)
    ensures page.FormPage? && clientType in CLIENT_TYPES ==> page.error == "Client name already in use"
  {
    if VerifyPw(db.sha1, db.users, authUser, authPassword) != Ok(true) {
      return Unauthorized;
    }
    if clientType !in CLIENT_TYPES {
      return FormPage("Invalid type");
    }
    var ok := db.CreateClient(clientName, clientType, 0.0);
    if !ok {
      return FormPage("Client name already in use");
    }
    page := Redirect("/");
  }

  /**
   * `/new_user` (POST): admin only; an empty password is refused before
   * `create_user` runs. `isAdminField` is the checkbox value, "on" when ticked;
   * `salt` and `apiKey` are the values the source draws at random.
   */
  method InsertUser(db: Database, authUser: string, authPassword: string, username: string, password: string,
                    email: string, isAdminField: string, salt: string, apiKey: string)
    returns (page: Page)
    requires db.Valid()
    requires |salt| == SALT_LEN && IsAlnum(salt)
    requires |apiKey| == KEY_LEN && IsAlnum(apiKey)
    modifies db`users
    ensures db.Valid()
    ensures VerifyPw(db.sha1, old(db.users), authUser, authPassword) != Ok(true) ==> page == Unauthorized
    ensures VerifyPw(db.sha1, old(db.users), authUser, authPassword) == Ok(true) && password == "" ==>
      page == FormPage("Invalid password")
    ensures page.Redirect? <==>
      VerifyPw(db.sha1, old(db.users), authUser, authPassword) == Ok(true) && password != "" &&
      forall i :: 0 <= i < |old(db.users)| ==> old(db.users)[i].username != username
    ensures page.Redirect? ==>
      page.target == "/" &&
      db.users == old(db.users) + [NewUser(db.sha1, |old(db.users)| + 1, username, password, email,
                                           isAdminField == "on", salt, apiKey)]
    ensures !page.Redirect? ==> db.users == old(db.users)
    ensures page.FormPage? && password != "" ==> page.error == "Username already in use"
  {
    if VerifyPw(db.sha1, db.users, authUser, authPassword) != Ok(true) {
      return Unauthorized;
    }
    if password == "" {
      return FormPage("Invalid password");
    }
    var ok := db.CreateUser(username, password, email, isAdminField == "on", salt, apiKey);
    if !ok {
      return FormPage("Username already in use");
    }
    page := Redirect("/");
  }

  /**
   * `/new_ad` (POST): admin only; latitude, longitude and height must all
   * have parsed (`to_float` gave a number) before `create_ad` runs.
   */
  method InsertAd(db: Database, authUser: string, authPassword: string, adName: string, clientName: string,
                  category: string, adType: string,
                  latitude: Option<real>, longitude: Option<real>, height: Option<real>)
    returns (page: Page)
    requires db.Valid()
    modifies db`ads
    ensures db.Valid()
    ensures VerifyPw(db.sha1, db.users, authUser, authPassword) != Ok(true) ==> page == Unauthorized
    ensures VerifyPw(db.sha1, db.users, authUser, authPassword) == Ok(true) &&
            (latitude.None? || longitude.None? || height.None?) ==>
      page == FormPage(INVALID_COORDINATES)
    ensures page.Redirect? <==>
      VerifyPw(db.sha1, db.users, authUser, authPassword) == Ok(true) &&
      latitude.Some? && longitude.Some? && height.Some? &&
      exists c :: 0 <= c < |db.clients| && db.clients[c].name == clientName
    ensures page.Redirect? ==>
      page.target == "/" &&
      exists c :: 0 <= c < |db.clients| && db.clients[c].name == clientName &&
        db.ads == old(db.ads) + [Ad(|old(db.ads)| + 1, adName, db.clients[c].id, category, latitude.value,
                                    longitude.value, height.value, 0, 0, adType, None)]
    ensures !page.Redirect? ==> db.ads == old(db.ads)
    ensures page.FormPage? && latitude.Some? && longitude.Some? && height.Some? ==>
      page.error == "An error happened"
  {
    if VerifyPw(db.sha1, db.users, authUser, authPassword) != Ok(true) {
      return Unauthorized;
    }
    if latitude.None? || longitude.None? || height.None? {
      return FormPage(INVALID_COORDINATES);
    }
    var ok := db.CreateAd(adName, clientName, latitude.value, longitude.value, height.value,
                          category, adType, None);
    if !ok {
      return FormPage("An error happened");
    }
    page := Redirect("/");
  }
}
