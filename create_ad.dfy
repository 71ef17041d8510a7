/**
 * `createAd`: required-field validation in a fixed order, geocoding of the
 * trimmed address, photo normalisation, the save with the fixed initial
 * status, the `Seller` role added to the poster, and the mapping of every
 * caught error to an HTTP reply. The geocoder, the slug generator and the
 * database ids are parameters.
 */
module CreateListing {
  import opened Wrappers
  import opened JsValues
  import opened S3Keys
  import opened Listings
  import opened Users

  /** What the geocoder returns for an address. */
  datatype Geocoded = Geocoded(location: Option<Location>, googleMap: Json)

  /** The geocoder: a result for the (trimmed) address, or a failure message. */
  type Geocoder = string -> Result<Geocoded, string>

  /** An error as the handler's `catch` inspects it: `err.message` and `err.code`. */
  datatype Caught = Caught(message: string, code: Option<int>)

  /** The listing fields the reply echoes. */
  datatype AdSummary = AdSummary(id: string, photos: seq<Json>, address: Option<string>, price: Option<string>,
                                 propertytype: PropertyType, location: Option<Location>, slug: string)

  datatype CreateBody = ErrorBody(error: string, details: Option<string>) | Created(success: bool, ad: AdSummary)

  /** `res.status(code).json(body)`. */
  datatype CreateReply = CreateReply(code: nat, body: CreateBody)

  // ---- validateRequired ----

  /** `!field || (typeof field === "string" && !field.trim())`. */
  predicate Missing(v: Json) {
    !Truthy(v) || (v.Str? && Trim(v.s) == "")
  }

  /** A required value and the name its error message uses. */
  datatype Required = Required(value: Json, name: string)

  /** `photos` with its default: an absent list is empty. */
  function PhotosOf(body: Json): Json {
    var p := Prop(body, "photos");
    if p.Undefined? then Arr([]) else p
  }

  /** `photos?.length`. */
  function PhotosLength(photos: Json): Json {
    if IsNullish(photos) then Undefined else Prop(photos, "length")
  }

  /** The checks in the order they run; the two land fields only for a `Land` listing. */
  function RequiredFields(body: Json): (rs: seq<Required>)
    ensures |rs| == 6 || |rs| == 8
  {
    [ Required(PhotosLength(PhotosOf(body)), "Photos"),
      Required(Prop(body, "description"), "Description"),
      Required(Prop(body, "address"), "Address"),
      Required(Prop(body, "propertyType"), "Property Type"),
      Required(Prop(body, "price"), "Price"),
      Required(Prop(body, "action"), "Action") ]
    + (if Prop(body, "propertyType") == Str("Land")
       then [Required(Prop(body, "landsize"), "Landsize"), Required(Prop(body, "landsizeType"), "Landsize Type")]
       else [])
  }

  /** The name of the first missing value, if any. */
  function FirstMissing(rs: seq<Required>): (r: Option<string>)
    ensures r.None? <==> forall i :: 0 <= i < |rs| ==> !Missing(rs[i].value)
    ensures r.Some? ==> exists i :: 0 <= i < |rs| && rs[i].name == r.value && Missing(rs[i].value)
                                && forall j :: 0 <= j < i ==> !Missing(rs[j].value)
  {
    if rs == [] then None
    else if Missing(rs[0].value) then Some(rs[0].name)
    else
      var rest := FirstMissing(rs[1..]);
      if rest.Some? then
        ghost var k :| 0 <= k < |rs[1..]| && rs[1..][k].name == rest.value && Missing(rs[1..][k].value)
                    && forall j :: 0 <= j < k ==> !Missing(rs[1..][j].value);
        assert rs[k + 1].name == rest.value;
        rest
      else None
  }

  /** The order of the checks: six for every listing, two more for land. */
  lemma RequiredOrder(body: Json)
    ensures var names := seq(|RequiredFields(body)|, i requires 0 <= i < |RequiredFields(body)| => RequiredFields(body)[i].name);
      names == ["Photos", "Description", "Address", "Property Type", "Price", "Action"]
               + (if Prop(body, "propertyType") == Str("Land") then ["Landsize", "Landsize Type"] else [])
  {
  }

  /** The photo count fails the check exactly when the list is missing, null, empty or has no length. */
  lemma PhotosCheck(body: Json)
    ensures PhotosOf(body).Arr? ==> (Missing(PhotosLength(PhotosOf(body))) <==> PhotosOf(body).items == [])
    ensures Prop(body, "photos").Undefined? ==> Missing(PhotosLength(PhotosOf(body)))
    ensures Prop(body, "photos").Null? ==> Missing(PhotosLength(PhotosOf(body)))
  {
  }

  // ---- photo normalisation ----

  /** The first nullish item of a list, the one `map` stops at. */
  function FirstNullish(items: seq<Json>): (r: Option<Json>)
    ensures r.None? <==> forall i :: 0 <= i < |items| ==> !IsNullish(items[i])
    ensures r.Some? ==> IsNullish(r.value) && r.value in items
  {
    if items == [] then None
    else if IsNullish(items[0]) then Some(items[0])
    else
      var rest := FirstNullish(items[1..]);
      assert forall i :: 1 <= i < |items| ==> items[i] == items[1..][i - 1];
      rest
  }

  /** `photos.map((photo) => typeof photo === "string" ? photo : photo.url)`. */
  function NormalisePhotos(photos: Json): (r: Result<seq<Json>, Caught>)
    ensures r.Success? ==> photos.Arr? && |r.value| == |photos.items|
    ensures r.Success? ==> forall i :: 0 <= i < |photos.items| ==>
      r.value[i] == (if photos.items[i].Str? then photos.items[i] else Prop(photos.items[i], "url"))
    ensures photos.Arr? ==> (r.Success? <==> forall i :: 0 <= i < |photos.items| ==> !IsNullish(photos.items[i]))
  {
    if !photos.Arr? then Failure(Caught("photos.map is not a function", None))
    else if FirstNullish(photos.items).Some? then
      var kind := if FirstNullish(photos.items).value.Null? then "null" else "undefined";
      Failure(Caught("Cannot read properties of " + kind + " (reading 'url')", None))
    else
      Success(seq(|photos.items|, i requires 0 <= i < |photos.items| =>
        if photos.items[i].Str? then photos.items[i] else Prop(photos.items[i], "url")))
  }

  // ---- the error mapping ----

  /**
   * The `catch` of `createAd`: geocoder messages first, then the duplicate
   * key code, then a 500 that shows the message only in development.
   */
  function ErrorReply(e: Caught, development: bool): (r: CreateReply)
    ensures r.code in {404, 502, 400, 500}
    ensures r.code == 404 <==> Includes(e.message, "No results found")
    ensures r.code == 502 <==> !Includes(e.message, "No results found") && Includes(e.message, "Google API Error")
    ensures r.code == 400 <==>
      (!Includes(e.message, "No results found") && !Includes(e.message, "Google API Error") && e.code == Some(11000))
    ensures r.code == 404 ==> r.body == ErrorBody("Address not found", None)
    ensures r.code == 502 ==> r.body == ErrorBody("Geocoding service unavailable", None)
    ensures r.code == 400 ==> r.body == ErrorBody("This property already exists", None)
    ensures r.code == 500 ==> r.body == ErrorBody("Failed to create ad", if development then Some(e.message) else None)
  {
    if Includes(e.message, "No results found") then CreateReply(404, ErrorBody("Address not found", None))
    else if Includes(e.message, "Google API Error") then CreateReply(502, ErrorBody("Geocoding service unavailable", None))
    else if e.code == Some(11000) then CreateReply(400, ErrorBody("This property already exists", None))
    else CreateReply(500, ErrorBody("Failed to create ad", if development then Some(e.message) else None))
  }

  /** Text whose first character `sub` does not hold nowhere contains `sub`. */
  lemma {:induction false} NoLeadCharNoMatch(s: string, sub: string)
    requires sub != [] && sub[0] !in s
    ensures !Includes(s, sub)
    decreases |s|
  {
    if s != [] {
      assert s[0] != sub[0];
      NoLeadCharNoMatch(s[1..], sub);
    }
  }

  /** A lower-cased text holds no capital letter. */
  lemma LoweredHasNoCapital(s: string, c: char)
    requires 'A' <= c <= 'Z'
    ensures c !in ToLower(s)
  {
    forall i | 0 <= i < |s| ensures ToLower(s)[i] != c {
      assert ToLower(s)[i] == LowerAscii(s[i]);
    }
  }

  /** Neither 'N' nor 'G' occurs in the fixed parts of the slug index's duplicate-key message. */
  lemma FixedPartsHaveNoCapitals()
    ensures 'N' !in DuplicateKeyText + SlugIndexText + SlugOpen && 'G' !in DuplicateKeyText + SlugIndexText + SlugOpen
    ensures 'N' !in SlugClose && 'G' !in SlugClose
  {
    var head := DuplicateKeyText + SlugIndexText + SlugOpen;
    forall i | 0 <= i < |head| ensures head[i] != 'N' && head[i] != 'G' {
      if i < |DuplicateKeyText| {
        assert head[i] == DuplicateKeyText[i];
      } else if i < |DuplicateKeyText| + |SlugIndexText| {
        assert head[i] == SlugIndexText[i - |DuplicateKeyText|];
      } else {
        assert head[i] == SlugOpen[i - |DuplicateKeyText| - |SlugIndexText|];
      }
    }
  }

  /** Neither 'N' nor 'G' occurs in the fixed parts of the `_id` index's duplicate-key message. */
  lemma IdPartsHaveNoCapitals()
    ensures 'N' !in DuplicateKeyText + IdIndexText + IdOpen && 'G' !in DuplicateKeyText + IdIndexText + IdOpen
    ensures 'N' !in IdClose && 'G' !in IdClose
  {
    var head := DuplicateKeyText + IdIndexText + IdOpen;
    forall i | 0 <= i < |head| ensures head[i] != 'N' && head[i] != 'G' {
      if i < |DuplicateKeyText| {
        assert head[i] == DuplicateKeyText[i];
      } else if i < |DuplicateKeyText| + |IdIndexText| {
        assert head[i] == IdIndexText[i - |DuplicateKeyText|];
      } else {
        assert head[i] == IdOpen[i - |DuplicateKeyText| - |IdIndexText|];
      }
    }
  }

  /** A character absent from three texts is absent from their concatenation. */
  lemma AbsentFromConcat(a: string, b: string, c: string, x: char)
    requires x !in a && x !in b && x !in c
    ensures x !in a + b + c
  {
    var s := a + b + c;
    forall i | 0 <= i < |s| ensures s[i] != x {
      if i < |a| { assert s[i] == a[i]; }
      else if i < |a| + |b| { assert s[i] == b[i - |a|]; }
      else { assert s[i] == c[i - |a| - |b|]; }
    }
  }

  /** The duplicate-key message of a lower-cased slug holds neither 'N' nor 'G'. */
  lemma DuplicateMessageHasNoCapitals(slug: string)
    ensures var m := DuplicateSlug(ToLower(slug)).message;
      'N' !in m && 'G' !in m
  {
    var head := DuplicateKeyText + SlugIndexText + SlugOpen;
    var low := ToLower(slug);
    LoweredHasNoCapital(slug, 'N');
    LoweredHasNoCapital(slug, 'G');
    FixedPartsHaveNoCapitals();
    AbsentFromConcat(head, low, SlugClose, 'N');
    AbsentFromConcat(head, low, SlugClose, 'G');
    assert DuplicateSlug(low).message == head + low + SlugClose;
  }

  lemma DuplicateSlugMapsToConflict(slug: string, development: bool)
    ensures var e := DuplicateSlug(ToLower(slug));
      ErrorReply(Caught(e.message, e.code), development) == CreateReply(400, ErrorBody("This property already exists", None))
  {
    var m := DuplicateSlug(ToLower(slug)).message;
    DuplicateMessageHasNoCapitals(slug);
    NoLeadCharNoMatch(m, "No results found");
    NoLeadCharNoMatch(m, "Google API Error");
  }

  /**
   * The id a listing is stored under holds neither 'N' nor 'G' when the
   * database assigns object ids: a given `_id` is lower-cased, an assigned
   * one is hexadecimal.
   */
  lemma StoredIdHasNoCapitals(d: Draft, newId: string)
    requires IsObjectIdText(newId)
    ensures 'N' !in StoredId(d, newId) && 'G' !in StoredId(d, newId)
  {
    match d.givenId
    case Str(s) =>
      LoweredHasNoCapital(s, 'N');
      LoweredHasNoCapital(s, 'G');
    case Obj(m) =>
      if HasStringId(d.givenId) {
        LoweredHasNoCapital(m["_id"].s, 'N');
        LoweredHasNoCapital(m["_id"].s, 'G');
      }
    case _ =>
  }

  /** The duplicate-key error of an id without 'N' or 'G' is answered 400 "This property already exists". */
  lemma DuplicateIdMapsToConflict(id: string, development: bool)
    requires 'N' !in id && 'G' !in id
    ensures var e := DuplicateId(id);
      ErrorReply(Caught(e.message, e.code), development) == CreateReply(400, ErrorBody("This property already exists", None))
  {
    var head := DuplicateKeyText + IdIndexText + IdOpen;
    var m := DuplicateId(id).message;
    IdPartsHaveNoCapitals();
    AbsentFromConcat(head, id, IdClose, 'N');
    AbsentFromConcat(head, id, IdClose, 'G');
    assert m == head + id + IdClose;
    NoLeadCharNoMatch(m, "No results found");
    NoLeadCharNoMatch(m, "Google API Error");
  }

  // ---- the handler ----

  /** The document handed to `new Ad(..)`: the body's schema paths, overridden by the handler's own. */
  function BuildDraft(body: Json, address: string, photos: seq<Json>, geo: Geocoded, slug: string, userId: string): Draft {
    Draft(slug, photos, Prop(body, "description"), Str(address), Prop(body, "propertyType"), Prop(body, "price"),
          Prop(body, "bedrooms"), Prop(body, "bathrooms"), Prop(body, "landsize"), Prop(body, "landsizeType"),
          Prop(body, "carpark"), Prop(body, "action"), Str("In market"), Prop(body, "title"),
          Prop(body, "published"), Prop(body, "views"), Prop(body, "inspectionTime"),
          geo.location, geo.googleMap, userId, Prop(body, "_id"),
          map["features" := Prop(body, "features"), "nearby" := Prop(body, "nearby")])
  }

  function Summary(ad: Ad): AdSummary {
    AdSummary(ad.id, ad.photos, ad.address, ad.price, ad.propertytype, ad.location, ad.slug)
  }

  /** The destructuring of a missing body throws, naming its value. */
  function BodyMissing(body: Json): Caught {
    Caught("Cannot destructure property 'photos' of 'req.body' as it is " + (if body.Null? then "null" else "undefined") + ".", None)
  }

  /**
   * The steps before the save succeed: a body, every required value, a
   * string address, a geocoder result and normalisable photos.
   */
  predicate ReachesSave(body: Json, geocode: Geocoder) {
    && !IsNullish(body) && FirstMissing(RequiredFields(body)).None? && Prop(body, "address").Str?
    && geocode(Trim(Prop(body, "address").s)).Success? && NormalisePhotos(PhotosOf(body)).Success?
  }

  /** The draft of a request that got as far as the save. */
  function DraftOf(body: Json, userId: string, geocode: Geocoder, slug: string): Draft
    requires ReachesSave(body, geocode)
  {
    BuildDraft(body, Prop(body, "address").s, NormalisePhotos(PhotosOf(body)).value,
               geocode(Trim(Prop(body, "address").s)).value, slug, userId)
  }

  /** The save, then the role update, then the reply. */
  function SaveStage(ads: seq<Ad>, users: seq<User>, d: Draft, userId: string, newId: string,
                     roleFault: Option<string>, development: bool): (CreateReply, seq<Ad>, seq<User>)
  {
    var saved := SaveOutcome(ads, d, newId);
    match saved.0
    case Failure(err) => (ErrorReply(Caught(err.message, err.code), development), saved.1, users)
    case Success(ad) =>
      match roleFault
      case Some(m) => (ErrorReply(Caught(m, None), development), saved.1, users)
      case None => (CreateReply(200, Created(true, Summary(ad))), saved.1, AddRoleState(users, userId, "Seller"))
  }

  /**
   * `createAd`: the reply, the listings and the users afterwards. `slug` is
   * the generated slug, `newId` the id the database gives the listing,
   * `roleFault` the failure message of the role update, if it fails.
   */
  function CreateAdOutcome(ads: seq<Ad>, users: seq<User>, body: Json, userId: string, geocode: Geocoder,
                           slug: string, newId: string, roleFault: Option<string>, development: bool)
    : (CreateReply, seq<Ad>, seq<User>)
  {
    if IsNullish(body) then (ErrorReply(BodyMissing(body), development), ads, users)
    else
      match FirstMissing(RequiredFields(body))
      case Some(name) => (CreateReply(400, ErrorBody(name + " is required", None)), ads, users)
      case None =>
        var address := Prop(body, "address");
        if !address.Str? then (ErrorReply(Caught("address.trim is not a function", None), development), ads, users)
        else
          match geocode(Trim(address.s))
          case Failure(m) => (ErrorReply(Caught(m, None), development), ads, users)
          case Success(geo) =>
            match NormalisePhotos(PhotosOf(body))
            case Failure(c) => (ErrorReply(c, development), ads, users)
            case Success(photos) =>
              SaveStage(ads, users, BuildDraft(body, address.s, photos, geo, slug, userId), userId, newId, roleFault, development)
  }

  /** A request that does not reach the save changes nothing and is not answered 200. */
  lemma StopsBeforeSave(ads: seq<Ad>, users: seq<User>, body: Json, userId: string, geocode: Geocoder,
                        slug: string, newId: string, roleFault: Option<string>, development: bool)
    ensures var out := CreateAdOutcome(ads, users, body, userId, geocode, slug, newId, roleFault, development);
      && (!ReachesSave(body, geocode) ==> out.1 == ads && out.2 == users && out.0.code != 200)
      && (ReachesSave(body, geocode) ==>
            out == SaveStage(ads, users, DraftOf(body, userId, geocode, slug), userId, newId, roleFault, development))
  {
    if !ReachesSave(body, geocode) {
      EarlyExit(ads, users, body, userId, geocode, slug, newId, roleFault, development);
    }
  }

  /** The error replies are never 200. */
  lemma ErrorReplyIsNotSuccess(e: Caught, development: bool)
    ensures ErrorReply(e, development).code != 200
  {
    assert ErrorReply(e, development).code in {404, 502, 400, 500};
  }

  lemma EarlyExit(ads: seq<Ad>, users: seq<User>, body: Json, userId: string, geocode: Geocoder,
                  slug: string, newId: string, roleFault: Option<string>, development: bool)
    requires !ReachesSave(body, geocode)
    ensures var out := CreateAdOutcome(ads, users, body, userId, geocode, slug, newId, roleFault, development);
      out.1 == ads && out.2 == users && out.0.code != 200
  {
    var out := CreateAdOutcome(ads, users, body, userId, geocode, slug, newId, roleFault, development);
    if IsNullish(body) {
      ErrorReplyIsNotSuccess(BodyMissing(body), development);
    } else if FirstMissing(RequiredFields(body)).Some? {
      assert out.0.code == 400;
    } else if !Prop(body, "address").Str? {
      ErrorReplyIsNotSuccess(Caught("address.trim is not a function", None), development);
    } else if geocode(Trim(Prop(body, "address").s)).Failure? {
      ErrorReplyIsNotSuccess(Caught(geocode(Trim(Prop(body, "address").s)).error, None), development);
    } else {
      ErrorReplyIsNotSuccess(NormalisePhotos(PhotosOf(body)).error, development);
    }
  }

  /**
   * The save stage keeps the collection valid; it answers 200 exactly when
   * the draft is valid, its object id and slug free and the role update
   * succeeds, and it stores the listing whenever the save itself went through.
   */
  lemma SaveStageSemantics(ads: seq<Ad>, users: seq<User>, d: Draft, userId: string, newId: string,
                           roleFault: Option<string>, development: bool)
    requires ValidCollection(ads)
    ensures var out := SaveStage(ads, users, d, userId, newId, roleFault, development);
      var saves := Violations(d) == [] && !IdTaken(ads, StoredId(d, newId)) && !SlugTaken(ads, ToLower(d.slug));
      && ValidCollection(out.1)
      && (saves ==> out.1 == ads + [Cast(d, newId)])
      && (!saves ==> out.1 == ads && out.2 == users)
      && (out.0.code == 200 <==> saves && roleFault.None?)
      && (out.0.code == 200 ==>
            out.0.body == Created(true, Summary(Cast(d, newId))) && out.2 == AddRoleState(users, userId, "Seller"))
      && (roleFault.Some? ==> out.2 == users)
  {
    SaveKeepsCollectionValid(ads, d, newId);
  }

  /**
   * A missing required value is answered 400 "<name> is required" with
   * nothing stored, whatever the geocoder, the slug or the role update
   * would have done: validation runs before any of them.
   */
  lemma ValidationComesFirst(ads: seq<Ad>, users: seq<User>, body: Json, userId: string, geocode: Geocoder,
                             otherGeocode: Geocoder, slug: string, otherSlug: string, newId: string,
                             roleFault: Option<string>, development: bool)
    requires !IsNullish(body) && FirstMissing(RequiredFields(body)).Some?
    ensures var out := CreateAdOutcome(ads, users, body, userId, geocode, slug, newId, roleFault, development);
      && out == (CreateReply(400, ErrorBody(FirstMissing(RequiredFields(body)).value + " is required", None)), ads, users)
      && out == CreateAdOutcome(ads, users, body, userId, otherGeocode, otherSlug, newId, None, development)
  {
  }

  /**
   * A successful request (valid draft, free object id and slug, role update through)
   * appends its listing, answers 200 echoing it and adds "Seller" to the
   * caller's roles as a set; the collection stays valid.
   */
  lemma CreatedListing(ads: seq<Ad>, users: seq<User>, body: Json, userId: string, geocode: Geocoder,
                       slug: string, newId: string, development: bool)
    requires ValidCollection(ads)
    requires ReachesSave(body, geocode)
    requires Violations(DraftOf(body, userId, geocode, slug)) == [] && !SlugTaken(ads, ToLower(slug))
    requires !IdTaken(ads, StoredId(DraftOf(body, userId, geocode, slug), newId))
    ensures var out := CreateAdOutcome(ads, users, body, userId, geocode, slug, newId, None, development);
      var ad := Cast(DraftOf(body, userId, geocode, slug), newId);
      && out == (CreateReply(200, Created(true, Summary(ad))), ads + [ad], AddRoleState(users, userId, "Seller"))
      && ValidCollection(out.1)
  {
    StopsBeforeSave(ads, users, body, userId, geocode, slug, newId, None, development);
    SaveStageSemantics(ads, users, DraftOf(body, userId, geocode, slug), userId, newId, None, development);
  }

  /**
   * The stored listing: posted by the caller, status "In market", the given
   * address untrimmed, the photos normalised (a string kept, anything else
   * replaced by its `url`), the slug lower-cased; its id is the body's own
   * `_id`, lower-cased, when there is one, else the assigned id.
   */
  lemma CreatedListingFields(body: Json, userId: string, geocode: Geocoder, slug: string, newId: string)
    requires ReachesSave(body, geocode)
    requires Violations(DraftOf(body, userId, geocode, slug)) == []
    ensures var photos := PhotosOf(body);
      var ad := Cast(DraftOf(body, userId, geocode, slug), newId);
      && ad.status == InMarket && ad.postedBy == userId && ad.slug == ToLower(slug)
      && (Prop(body, "_id").Undefined? ==> ad.id == newId)
      && (Prop(body, "_id").Str? ==> ad.id == ToLower(Prop(body, "_id").s) && IsObjectIdText(Prop(body, "_id").s))
      && ad.address == Some(Prop(body, "address").s)
      && photos.Arr? && |ad.photos| == |photos.items|
      && (forall i :: 0 <= i < |photos.items| ==>
            ad.photos[i] == (if photos.items[i].Str? then photos.items[i] else Prop(photos.items[i], "url")))
  {
    var d := DraftOf(body, userId, geocode, slug);
    assert d.status == Str("In market") && d.address == Str(Prop(body, "address").s);
    assert d.photos == NormalisePhotos(PhotosOf(body)).value && d.postedBy == userId && d.slug == slug;
    assert d.givenId == Prop(body, "_id");
    CastKeepsPaths(d, newId);
    StoredIdSource(d, newId);
    MalformedIdViolates(d);
  }

  /**
   * A taken object id or a taken slug, with everything else in order, is
   * answered 400 "This property already exists", nothing stored; `newId`
   * is an object id as the database assigns them.
   */
  lemma TakenIdOrSlugIsConflict(ads: seq<Ad>, users: seq<User>, body: Json, userId: string, geocode: Geocoder,
                                slug: string, newId: string, roleFault: Option<string>, development: bool)
    requires ReachesSave(body, geocode) && IsObjectIdText(newId)
    requires Violations(DraftOf(body, userId, geocode, slug)) == []
    requires IdTaken(ads, StoredId(DraftOf(body, userId, geocode, slug), newId)) || SlugTaken(ads, ToLower(slug))
    ensures CreateAdOutcome(ads, users, body, userId, geocode, slug, newId, roleFault, development)
         == (CreateReply(400, ErrorBody("This property already exists", None)), ads, users)
  {
    var d := DraftOf(body, userId, geocode, slug);
    StopsBeforeSave(ads, users, body, userId, geocode, slug, newId, roleFault, development);
    if IdTaken(ads, StoredId(d, newId)) {
      StoredIdHasNoCapitals(d, newId);
      DuplicateIdMapsToConflict(StoredId(d, newId), development);
    } else {
      DuplicateSlugMapsToConflict(slug, development);
    }
  }

  /**
   * A failing role update comes after the save: the listing stays stored
   * while the reply is the error mapping of the failure.
   */
  lemma RoleFailureKeepsListing(ads: seq<Ad>, users: seq<User>, body: Json, userId: string, geocode: Geocoder,
                                slug: string, newId: string, fault: string, development: bool)
    requires ReachesSave(body, geocode)
    requires Violations(DraftOf(body, userId, geocode, slug)) == [] && !SlugTaken(ads, ToLower(slug))
    requires !IdTaken(ads, StoredId(DraftOf(body, userId, geocode, slug), newId))
    ensures var out := CreateAdOutcome(ads, users, body, userId, geocode, slug, newId, Some(fault), development);
      && out.0 == ErrorReply(Caught(fault, None), development)
      && out.1 == ads + [Cast(DraftOf(body, userId, geocode, slug), newId)]
      && out.2 == users
  {
    StopsBeforeSave(ads, users, body, userId, geocode, slug, newId, Some(fault), development);
  }

  /**
   * A draft that violates the schema stores nothing and never reaches the
   * role update. Its reply is the error mapping of the validation message,
   * which quotes the offending values: 404 "Address not found" when one of
   * them holds "No results found", 502 when one holds "Google API Error",
   * and otherwise 500 "Failed to create ad", the message exposed only in
   * development.
   */
  lemma InvalidDraftRejected(ads: seq<Ad>, users: seq<User>, d: Draft, userId: string, newId: string,
                             roleFault: Option<string>, development: bool)
    requires Violations(d) != []
    ensures var vs := Violations(d);
      var m := ValidationFailure(d, vs).message;
      var out := SaveStage(ads, users, d, userId, newId, roleFault, development);
      && out == (ErrorReply(Caught(m, None), development), ads, users)
      && (Quotes(d, vs, "No results found") ==> out.0 == CreateReply(404, ErrorBody("Address not found", None)))
      && (!Quotes(d, vs, "No results found") && Quotes(d, vs, "Google API Error")
          ==> out.0 == CreateReply(502, ErrorBody("Geocoding service unavailable", None)))
      && (!Quotes(d, vs, "No results found") && !Quotes(d, vs, "Google API Error")
          ==> out.0 == CreateReply(500, ErrorBody("Failed to create ad", if development then Some(m) else None)))
  {
    var vs := Violations(d);
    MarkersAreMarkerLike();
    ValidationMessageQuotes(d, vs, "No results found");
    ValidationMessageQuotes(d, vs, "Google API Error");
  }

  /**
   * A request whose draft violates the schema stores nothing, leaves the
   * users as they were and is never answered 200; it is answered 500 unless
   * one of the quoted values holds a geocoder marker, and 404 when one holds
   * "No results found".
   */
  lemma InvalidDraftIsRefused(ads: seq<Ad>, users: seq<User>, body: Json, userId: string, geocode: Geocoder,
                              slug: string, newId: string, roleFault: Option<string>, development: bool)
    requires ReachesSave(body, geocode)
    requires Violations(DraftOf(body, userId, geocode, slug)) != []
    ensures var d := DraftOf(body, userId, geocode, slug);
      var vs := Violations(d);
      var m := ValidationFailure(d, vs).message;
      var out := CreateAdOutcome(ads, users, body, userId, geocode, slug, newId, roleFault, development);
      && out.1 == ads && out.2 == users && out.0.code != 200
      && (Quotes(d, vs, "No results found") ==> out.0 == CreateReply(404, ErrorBody("Address not found", None)))
      && (!Quotes(d, vs, "No results found") && !Quotes(d, vs, "Google API Error")
          ==> out.0 == CreateReply(500, ErrorBody("Failed to create ad", if development then Some(m) else None)))
  {
    var d := DraftOf(body, userId, geocode, slug);
    StopsBeforeSave(ads, users, body, userId, geocode, slug, newId, roleFault, development);
    InvalidDraftRejected(ads, users, d, userId, newId, roleFault, development);
    ErrorReplyIsNotSuccess(Caught(ValidationFailure(d, Violations(d)).message, None), development);
  }

  /**
   * A property type "No results found" is refused by the schema, and the
   * validation message quoting it is taken for a geocoder failure: the
   * request is answered 404 "Address not found", nothing stored.
   */
  lemma QuotedMarkerIsNotFound(ads: seq<Ad>, users: seq<User>, body: Json, userId: string, geocode: Geocoder,
                               slug: string, newId: string, roleFault: Option<string>, development: bool)
    requires ReachesSave(body, geocode)
    requires Prop(body, "propertyType") == Str("No results found")
    ensures CreateAdOutcome(ads, users, body, userId, geocode, slug, newId, roleFault, development)
         == (CreateReply(404, ErrorBody("Address not found", None)), ads, users)
  {
    var d := DraftOf(body, userId, geocode, slug);
    assert d.propertytype == Prop(body, "propertyType");
    MarkerPropertyTypeIsQuoted(d);
    InvalidDraftIsRefused(ads, users, body, userId, geocode, slug, newId, roleFault, development);
  }

  /**
   * A body `_id` that is not 24 hexadecimal digits fails the ObjectId cast:
   * nothing is stored and the reply is never 200, nor the duplicate
   * listing's 400, even when the slug is taken.
   */
  lemma MalformedIdIsRefused(ads: seq<Ad>, users: seq<User>, body: Json, userId: string, geocode: Geocoder,
                             slug: string, newId: string, roleFault: Option<string>, development: bool)
    requires ReachesSave(body, geocode)
    requires Prop(body, "_id").Str? && !IsObjectIdText(Prop(body, "_id").s)
    ensures var out := CreateAdOutcome(ads, users, body, userId, geocode, slug, newId, roleFault, development);
      out.1 == ads && out.2 == users && out.0.code != 200 && out.0.code != 400
  {
    var d := DraftOf(body, userId, geocode, slug);
    assert d.givenId == Prop(body, "_id");
    MalformedIdViolates(d);
    StopsBeforeSave(ads, users, body, userId, geocode, slug, newId, roleFault, development);
    InvalidDraftRejected(ads, users, d, userId, newId, roleFault, development);
    ErrorReplyIsNotSuccess(Caught(ValidationFailure(d, Violations(d)).message, None), development);
  }

  /** A draft whose land size carries its unit violates the schema. */
  lemma UnitLandsizeViolates(d: Draft)
    requires d.landsize == Str("100 sqm")
    ensures Violation(LandsizePath) in Violations(d)
  {
    UnitTextFailsCast();
    assert Failed(d, LandsizePath);
    ViolatedIffFailed(d);
  }

  /**
   * A land size given with its unit fails the Number cast: nothing stored,
   * never 200, and 500 "Failed to create ad" unless a quoted value holds a
   * geocoder marker.
   */
  lemma LandsizeWithUnitIsRefused(ads: seq<Ad>, users: seq<User>, body: Json, userId: string,
                                  geocode: Geocoder, slug: string, newId: string,
                                  roleFault: Option<string>, development: bool)
    requires ReachesSave(body, geocode)
    requires Prop(body, "landsize") == Str("100 sqm")
    ensures var d := DraftOf(body, userId, geocode, slug);
      var vs := Violations(d);
      var out := CreateAdOutcome(ads, users, body, userId, geocode, slug, newId, roleFault, development);
      && Violation(LandsizePath) in vs && out.1 == ads && out.2 == users && out.0.code != 200
      && (!Quotes(d, vs, "No results found") && !Quotes(d, vs, "Google API Error")
          ==> out.0.code == 500 && out.0.body.ErrorBody? && out.0.body.error == "Failed to create ad")
  {
    var d := DraftOf(body, userId, geocode, slug);
    assert d.landsize == Prop(body, "landsize");
    UnitLandsizeViolates(d);
    InvalidDraftIsRefused(ads, users, body, userId, geocode, slug, newId, roleFault, development);
  }

  /** A geocoder failure stores nothing and is mapped by its message. */
  lemma GeocoderFailureStoresNothing(ads: seq<Ad>, users: seq<User>, body: Json, userId: string, geocode: Geocoder,
                                     slug: string, newId: string, roleFault: Option<string>, development: bool)
    requires !IsNullish(body) && FirstMissing(RequiredFields(body)).None? && Prop(body, "address").Str?
    requires geocode(Trim(Prop(body, "address").s)).Failure?
    ensures var out := CreateAdOutcome(ads, users, body, userId, geocode, slug, newId, roleFault, development);
      && out.1 == ads && out.2 == users
      && out.0 == ErrorReply(Caught(geocode(Trim(Prop(body, "address").s)).error, None), development)
  {
  }

  /** `createAd` against the listing and user collections. */
  method CreateAd(ads: AdCollection, users: UserStore, body: Json, userId: string, geocode: Geocoder,
                  slug: string, newId: string, roleFault: Option<string>, development: bool)
    returns (reply: CreateReply)
    modifies ads, users
    ensures (reply, ads.ads, users.users)
         == CreateAdOutcome(old(ads.ads), old(users.users), body, userId, geocode, slug, newId, roleFault, development)
  {
    if IsNullish(body) {
      return ErrorReply(BodyMissing(body), development);
    }
    var missing := FirstMissing(RequiredFields(body));
    if missing.Some? {
      return CreateReply(400, ErrorBody(missing.value + " is required", None));
    }
    var address := Prop(body, "address");
    if !address.Str? {
      return ErrorReply(Caught("address.trim is not a function", None), development);
    }
    var geo := geocode(Trim(address.s));
    if geo.Failure? {
      return ErrorReply(Caught(geo.error, None), development);
    }
    var photos := NormalisePhotos(PhotosOf(body));
    if photos.Failure? {
      return ErrorReply(photos.error, development);
    }
    var saved := ads.Save(BuildDraft(body, address.s, photos.value, geo.value, slug, userId), newId);
    if saved.Failure? {
      return ErrorReply(Caught(saved.error.message, saved.error.code), development);
    }
    if roleFault.Some? {
      return ErrorReply(Caught(roleFault.value, None), development);
    }
    users.AddRole(userId, "Seller");
    reply := CreateReply(200, Created(true, Summary(saved.value)));
  }
}
