/**
 * The listing schema: its enumerations and defaults, the casts and
 * validators applied when a listing is saved, and the listing collection
 * with its unique, lower-cased slug index.
 */
module Listings {
  import opened Wrappers
  import opened JsValues
  import opened Decimal
  import opened S3Keys
  import opened JsNumbers

  // ---- enumerations ----

  datatype PropertyType = House | Apartment | Townhouse | Land

  function PropertyTypeName(t: PropertyType): string {
    match t
    case House => "House"
    case Apartment => "Apartment"
    case Townhouse => "Townhouse"
    case Land => "Land"
  }

  /** The `propertytype` enum validator: only the four names pass. */
  function ParsePropertyType(s: string): (r: Option<PropertyType>)
    ensures r.Some? ==> PropertyTypeName(r.value) == s
  {
    if s == "House" then Some(House)
    else if s == "Apartment" then Some(Apartment)
    else if s == "Townhouse" then Some(Townhouse)
    else if s == "Land" then Some(Land)
    else None
  }

  lemma PropertyTypeRoundTrip(t: PropertyType)
    ensures ParsePropertyType(PropertyTypeName(t)) == Some(t)
  {
  }

  datatype Action = Sell | Rent

  function ActionName(a: Action): string {
    match a
    case Sell => "Sell"
    case Rent => "Rent"
  }

  function ParseAction(s: string): (r: Option<Action>)
    ensures r.Some? ==> ActionName(r.value) == s
  {
    if s == "Sell" then Some(Sell) else if s == "Rent" then Some(Rent) else None
  }

  lemma ActionRoundTrip(a: Action)
    ensures ParseAction(ActionName(a)) == Some(a)
  {
  }

  /** The seven market states of a listing. */
  datatype Status = InMarket | DepositTaken | UnderOffer | ContactAgent | Sold | Rented | OffMarket

  function StatusName(s: Status): string {
    match s
    case InMarket => "In market"
    case DepositTaken => "Deposit taken"
    case UnderOffer => "Under offer"
    case ContactAgent => "Contact agent"
    case Sold => "Sold"
    case Rented => "Rented"
    case OffMarket => "Off market"
  }

  function ParseStatus(s: string): (r: Option<Status>)
    ensures r.Some? ==> StatusName(r.value) == s
  {
    if s == "In market" then Some(InMarket)
    else if s == "Deposit taken" then Some(DepositTaken)
    else if s == "Under offer" then Some(UnderOffer)
    else if s == "Contact agent" then Some(ContactAgent)
    else if s == "Sold" then Some(Sold)
    else if s == "Rented" then Some(Rented)
    else if s == "Off market" then Some(OffMarket)
    else None
  }

  lemma StatusRoundTrip(s: Status)
    ensures ParseStatus(StatusName(s)) == Some(s)
  {
  }

  /** Distinct states have distinct names, so the enum's seven strings are seven values. */
  lemma StatusNamesDistinct(a: Status, b: Status)
    ensures StatusName(a) == StatusName(b) ==> a == b
  {
    StatusRoundTrip(a);
    StatusRoundTrip(b);
  }

  const DefaultPropertyType := Apartment
  const DefaultAction := Sell
  const DefaultStatus := InMarket
  const DefaultPublished := true
  const DefaultViews := 0

  /** `maxLength` of `price`, `address` and `title`. */
  const MaxLength := 255

  // ---- the location sub-document ----

  /** A GeoJSON point: `type` is always "Point" once validated. */
  datatype Location = Location(kind: string, coordinates: seq<real>)

  /** The coordinates a location gets when it has none: Sydney. */
  const FallbackCoordinates: seq<real> := [151.2076681, -33.8624587]

  // ---- what is handed to `new Ad(..)` and what is stored ----

  /** The document as the handler builds it: every path still an uncast request value. */
  datatype Draft = Draft(
    slug: string,
    photos: seq<Json>,
    description: Json,
    address: Json,
    propertytype: Json,
    price: Json,
    bedrooms: Json,
    bathrooms: Json,
    landsize: Json,
    landsizetype: Json,
    carpark: Json,
    action: Json,
    status: Json,
    title: Json,
    published: Json,
    views: Json,
    inspectionTime: Json,
    location: Option<Location>,
    googleMap: Json,
    postedBy: string,
    givenId: Json,               // the body's own `_id`, spread into the document with the rest
    extras: map<string, Json>)   // the untyped paths `features` and `nearby`, stored as given

  /**
   * A stored listing: typed paths cast, defaults applied, slug lower-cased.
   * `None` is a path without value: absent, or stored as `null`.
   */
  datatype Ad = Ad(
    id: string,
    slug: string,
    photos: seq<Json>,
    description: Json,
    address: Option<string>,
    propertytype: PropertyType,
    price: Option<string>,
    bedrooms: Option<Number>,
    bathrooms: Option<Number>,
    landsize: Option<Number>,
    landsizetype: Option<string>,
    carpark: Option<Number>,
    action: Action,
    status: Status,
    title: Option<string>,
    published: Option<bool>,
    views: Option<Number>,
    inspectionTime: Option<string>,
    location: Option<Location>,
    googleMap: Json,
    postedBy: string,
    extras: map<string, Json>)

  /** The schema paths that carry a cast or a validator. */
  datatype Path =
    | PricePath | AddressPath | PropertyTypePath | BedroomsPath | BathroomsPath | LandsizePath
    | LandsizeTypePath | CarparkPath | LocationTypePath | TitlePath | PublishedPath | ActionPath
    | ViewsPath | StatusPath | InspectionTimePath | IdPath

  /** A path as the validation error names it. */
  function PathName(p: Path): string {
    match p
    case PricePath => "price"
    case AddressPath => "address"
    case PropertyTypePath => "propertytype"
    case BedroomsPath => "bedrooms"
    case BathroomsPath => "bathrooms"
    case LandsizePath => "landsize"
    case LandsizeTypePath => "landsizetype"
    case CarparkPath => "carpark"
    case LocationTypePath => "location.type"
    case TitlePath => "title"
    case PublishedPath => "published"
    case ActionPath => "action"
    case ViewsPath => "views"
    case StatusPath => "status"
    case InspectionTimePath => "inspectionTime"
    case IdPath => "_id"
  }

  /** A violated path of the schema. */
  datatype Violation = Violation(path: Path)

  /** The non-empty string `_id` of an object, the one Mongoose's casts unwrap. */
  predicate HasStringId(v: Json) {
    v.Obj? && "_id" in v.fields && v.fields["_id"].Str? && v.fields["_id"].s != ""
  }

  /**
   * The String cast: strings stay, numbers and booleans become their text,
   * `null` stays without value; an object with a non-empty string `_id` is
   * that `_id`; arrays and every other object fail.
   */
  function CastString(v: Json): (r: Result<Option<string>, ()>)
    ensures v.Str? ==> r == Success(Some(v.s))
    ensures IsNullish(v) ==> r == Success(None)
    ensures HasStringId(v) ==> r == Success(Some(v.fields["_id"].s))
    ensures (v.Arr? || (v.Obj? && !HasStringId(v))) ==> r.Failure?
  {
    match v
    case Undefined => Success(None)
    case Null => Success(None)
    case Str(s) => Success(Some(s))
    case Num(n) => Success(Some(IntText(n)))
    case Bool(b) => Success(Some(if b then "true" else "false"))
    case Obj(m) => if HasStringId(v) then Success(Some(m["_id"].s)) else Failure(())
    case Arr(_) => Failure(())
  }

  /** A String path with `maxLength: 255`, counted in UTF-16 units. */
  function BoundedString(v: Json): (r: Result<Option<string>, ()>)
    ensures r.Success? && r.value.Some? ==> JsLength(r.value.value) <= MaxLength
    ensures v.Str? ==> (r.Success? <==> JsLength(v.s) <= MaxLength)
  {
    match CastString(v)
    case Failure(_) => Failure(())
    case Success(None) => Success(None)
    case Success(Some(s)) => if JsLength(s) <= MaxLength then Success(Some(s)) else Failure(())
  }

  /**
   * The Number cast: a number stays, a boolean is 1 or 0, a string is read
   * with `Number(..)` and fails when that gives NaN; `null` and the empty
   * string are stored as `null`; arrays and plain objects fail.
   */
  function CastNumber(v: Json): Result<Option<Number>, ()> {
    match v
    case Undefined => Success(None)
    case Null => Success(None)
    case Num(n) => Success(Some(Finite(n as real)))
    case Bool(b) => Success(Some(Finite(if b then 1.0 else 0.0)))
    case Str(s) => CastNumberText(s)
    case _ => Failure(())
  }

  /** The Number cast of a string: empty is `null`, otherwise `Number(..)` unless that is NaN. */
  function CastNumberText(s: string): Result<Option<Number>, ()> {
    if s == "" then Success(None)
    else if StringToNumber(s).Some? then Success(Some(StringToNumber(s).value))
    else Failure(())
  }

  /** A number and its decimal text are stored alike; a number with a unit fails the cast. */
  lemma NumberTextCastsAlike(n: int)
    ensures CastNumber(Str(IntText(n))) == CastNumber(Num(n)) == Success(Some(Finite(n as real)))
  {
    var t := IntText(n);
    IntTextRoundTrip(n);
    assert CastNumberText(t) == Success(Some(Finite(n as real)));
  }

  /** Text that `Number(..)` reads as NaN fails the cast, and only such text. */
  lemma NaNTextFailsCast(s: string)
    ensures CastNumber(Str(s)).Failure? <==> s != "" && StringToNumber(s).None?
  {
  }

  /** An area with its unit fails the cast. */
  lemma UnitTextFailsCast()
    ensures CastNumberText("100 sqm").Failure?
  {
    UnitSuffixIsNaN();
  }

  // The enum paths: absent takes the default; otherwise the String cast's text must be one of the names.

  function CastPropertyType(v: Json): Result<PropertyType, ()> {
    if v.Undefined? then Success(DefaultPropertyType)
    else
      match CastString(v)
      case Success(Some(s)) => if ParsePropertyType(s).Some? then Success(ParsePropertyType(s).value) else Failure(())
      case _ => Failure(())
  }

  function CastAction(v: Json): Result<Action, ()> {
    if v.Undefined? then Success(DefaultAction)
    else
      match CastString(v)
      case Success(Some(s)) => if ParseAction(s).Some? then Success(ParseAction(s).value) else Failure(())
      case _ => Failure(())
  }

  function CastStatus(v: Json): Result<Status, ()> {
    if v.Undefined? then Success(DefaultStatus)
    else
      match CastString(v)
      case Success(Some(s)) => if ParseStatus(s).Some? then Success(ParseStatus(s).value) else Failure(())
      case _ => Failure(())
  }

  /** The Boolean cast of `published`: true, false and their usual spellings; `null` stays without value. */
  function CastBoolean(v: Json): Result<Option<bool>, ()> {
    match v
    case Undefined => Success(Some(DefaultPublished))
    case Null => Success(None)
    case Bool(b) => Success(Some(b))
    case Num(n) => if n == 1 then Success(Some(true)) else if n == 0 then Success(Some(false)) else Failure(())
    case Str(s) =>
      if s == "true" || s == "1" || s == "yes" then Success(Some(true))
      else if s == "false" || s == "0" || s == "no" then Success(Some(false))
      else Failure(())
    case _ => Failure(())
  }

  /** The Number path `views`, with its default for an absent value. */
  function CastViews(v: Json): Result<Option<Number>, ()> {
    if v.Undefined? then Success(Some(Finite(DefaultViews as real))) else CastNumber(v)
  }

  /** A 24-digit hexadecimal text: the one string form the ObjectId cast accepts. */
  predicate IsObjectIdText(s: string) {
    |s| == 24 && forall i :: 0 <= i < |s| ==> IsRadixDigit(s[i], 16)
  }

  /** The ObjectId cast of a text: an ObjectId prints its hexadecimal digits in lower case. */
  function ObjectIdOfText(s: string): (r: Result<Option<string>, ()>)
    ensures r.Success? <==> IsObjectIdText(s)
    ensures r.Success? ==> r.value == Some(ToLower(s))
  {
    if IsObjectIdText(s) then Success(Some(ToLower(s))) else Failure(())
  }

  /**
   * The ObjectId cast of `_id`: absent stays absent (the database assigns
   * one); a text, or an object's non-empty string `_id`, must be 24
   * hexadecimal digits; every other value fails.
   */
  function CastObjectId(v: Json): Result<Option<string>, ()> {
    match v
    case Undefined => Success(None)
    case Str(s) => ObjectIdOfText(s)
    case Obj(m) => if HasStringId(v) then ObjectIdOfText(m["_id"].s) else Failure(())
    case _ => Failure(())
  }

  /** The violation of `path` when `failed`, else none. */
  function Flag(failed: bool, path: Path): (r: seq<Violation>)
    ensures r == [] <==> !failed
    ensures forall q :: Violation(q) in r <==> failed && q == path
  {
    if failed then [Violation(path)] else []
  }

  /** Whether the value a draft gives `p` fails that path's cast or validator. */
  predicate Failed(d: Draft, p: Path) {
    match p
    case PricePath => BoundedString(d.price).Failure?
    case AddressPath => BoundedString(d.address).Failure?
    case PropertyTypePath => CastPropertyType(d.propertytype).Failure?
    case BedroomsPath => CastNumber(d.bedrooms).Failure?
    case BathroomsPath => CastNumber(d.bathrooms).Failure?
    case LandsizePath => CastNumber(d.landsize).Failure?
    case LandsizeTypePath => CastString(d.landsizetype).Failure?
    case CarparkPath => CastNumber(d.carpark).Failure?
    case LocationTypePath => d.location.Some? && d.location.value.kind != "Point"
    case TitlePath => BoundedString(d.title).Failure?
    case PublishedPath => CastBoolean(d.published).Failure?
    case ActionPath => CastAction(d.action).Failure?
    case ViewsPath => CastViews(d.views).Failure?
    case StatusPath => CastStatus(d.status).Failure?
    case InspectionTimePath => CastString(d.inspectionTime).Failure?
    case IdPath => CastObjectId(d.givenId).Failure?
  }

  /** The violations of the paths from `price` to `carpark`, in schema order. */
  function LeadingViolations(d: Draft): seq<Violation> {
    Flag(BoundedString(d.price).Failure?, PricePath)
    + Flag(BoundedString(d.address).Failure?, AddressPath)
    + Flag(CastPropertyType(d.propertytype).Failure?, PropertyTypePath)
    + Flag(CastNumber(d.bedrooms).Failure?, BedroomsPath)
    + Flag(CastNumber(d.bathrooms).Failure?, BathroomsPath)
    + Flag(CastNumber(d.landsize).Failure?, LandsizePath)
    + Flag(CastString(d.landsizetype).Failure?, LandsizeTypePath)
    + Flag(CastNumber(d.carpark).Failure?, CarparkPath)
  }

  /** The violations of the paths from `location` to `inspectionTime`, in schema order. */
  function TrailingViolations(d: Draft): seq<Violation> {
    Flag(d.location.Some? && d.location.value.kind != "Point", LocationTypePath)
    + Flag(BoundedString(d.title).Failure?, TitlePath)
    + Flag(CastBoolean(d.published).Failure?, PublishedPath)
    + Flag(CastAction(d.action).Failure?, ActionPath)
    + Flag(CastViews(d.views).Failure?, ViewsPath)
    + Flag(CastStatus(d.status).Failure?, StatusPath)
    + Flag(CastString(d.inspectionTime).Failure?, InspectionTimePath)
  }

  /** The violation of `_id`, the path Mongoose adds after the declared ones. */
  function IdViolations(d: Draft): seq<Violation> {
    Flag(CastObjectId(d.givenId).Failure?, IdPath)
  }

  /** Every schema violation of a draft, in path order: failed casts and failed validators. */
  function Violations(d: Draft): seq<Violation> {
    LeadingViolations(d) + TrailingViolations(d) + IdViolations(d)
  }

  /** A draft without violations passes every path's cast and validator. */
  lemma NothingFailed(d: Draft)
    requires Violations(d) == []
    ensures && BoundedString(d.price).Success? && BoundedString(d.address).Success? && BoundedString(d.title).Success?
            && CastPropertyType(d.propertytype).Success?
            && CastAction(d.action).Success?
            && CastStatus(d.status).Success?
            && CastNumber(d.bedrooms).Success? && CastNumber(d.bathrooms).Success? && CastNumber(d.landsize).Success?
            && CastNumber(d.carpark).Success? && CastViews(d.views).Success? && CastBoolean(d.published).Success?
            && CastString(d.landsizetype).Success? && CastString(d.inspectionTime).Success?
            && (d.location.Some? ==> d.location.value.kind == "Point")
            && CastObjectId(d.givenId).Success?
  {
    assert |Violations(d)| == |LeadingViolations(d)| + |TrailingViolations(d)| + |IdViolations(d)|;
  }

  /** The object id a saved draft gets: its own cast `_id` if it has one, else `id`, the one the database assigns. */
  function StoredId(d: Draft, id: string): string {
    match CastObjectId(d.givenId)
    case Success(Some(given)) => given
    case _ => id
  }

  /** The listing a valid draft is stored as, under its stored object id. */
  function Cast(d: Draft, id: string): Ad
    requires Violations(d) == []
  {
    NothingFailed(d);
    Ad(StoredId(d, id), ToLower(d.slug), d.photos, d.description, BoundedString(d.address).value,
       CastPropertyType(d.propertytype).value, BoundedString(d.price).value,
       CastNumber(d.bedrooms).value, CastNumber(d.bathrooms).value, CastNumber(d.landsize).value,
       CastString(d.landsizetype).value, CastNumber(d.carpark).value,
       CastAction(d.action).value, CastStatus(d.status).value,
       BoundedString(d.title).value, CastBoolean(d.published).value, CastViews(d.views).value,
       CastString(d.inspectionTime).value, d.location, d.googleMap, d.postedBy, d.extras)
  }

  /** What every stored listing satisfies. */
  predicate WellFormed(ad: Ad) {
    && (ad.price.Some? ==> JsLength(ad.price.value) <= MaxLength)
    && (ad.address.Some? ==> JsLength(ad.address.value) <= MaxLength)
    && (ad.title.Some? ==> JsLength(ad.title.value) <= MaxLength)
    && (ad.location.Some? ==> ad.location.value.kind == "Point")
    && ToLower(ad.slug) == ad.slug
  }

  /** Lower-casing twice changes nothing more. */
  lemma ToLowerIdempotent(s: string)
    ensures ToLower(ToLower(s)) == ToLower(s)
  {
    var once := ToLower(s);
    assert forall i :: 0 <= i < |s| ==> LowerAscii(once[i]) == once[i];
  }

  /** A draft without violations is stored well formed. */
  lemma CastIsWellFormed(d: Draft, id: string)
    requires Violations(d) == []
    ensures WellFormed(Cast(d, id))
  {
    NothingFailed(d);
    ToLowerIdempotent(d.slug);
  }

  /** The paths a valid draft leaves out are stored with the schema's defaults. */
  lemma CastAppliesDefaults(d: Draft, id: string)
    requires Violations(d) == []
    ensures d.propertytype.Undefined? ==> Cast(d, id).propertytype == Apartment
    ensures d.action.Undefined? ==> Cast(d, id).action == Sell
    ensures d.status.Undefined? ==> Cast(d, id).status == InMarket
    ensures d.published.Undefined? ==> Cast(d, id).published == Some(true)
    ensures d.views.Undefined? ==> Cast(d, id).views == Some(Finite(0.0))
  {
  }

  /** The paths a cast copies: the stored object id, lower-cased slug, poster, photos, the address string, the status. */
  lemma CastKeepsPaths(d: Draft, id: string)
    requires Violations(d) == []
    ensures var ad := Cast(d, id);
      && ad.id == StoredId(d, id) && ad.slug == ToLower(d.slug) && ad.postedBy == d.postedBy && ad.photos == d.photos
      && ad.location == d.location
      && (d.address.Str? ==> ad.address == Some(d.address.s))
      && (d.status == Str("In market") ==> ad.status == InMarket)
  {
    assert ParseStatus("In market") == Some(InMarket);
  }

  /** A valid draft's land size is stored as `Number(..)` reads its text, or as the number given. */
  lemma CastStoresLandsize(d: Draft, id: string)
    requires Violations(d) == []
    ensures d.landsize.Str? && d.landsize.s != "" ==> Cast(d, id).landsize == StringToNumber(d.landsize.s)
    ensures d.landsize.Num? ==> Cast(d, id).landsize == Some(Finite(d.landsize.n as real))
    ensures IsNullish(d.landsize) || d.landsize == Str("") ==> Cast(d, id).landsize.None?
  {
    NothingFailed(d);
    NumberCastReadsText(d.landsize);
    assert Cast(d, id).landsize == CastNumber(d.landsize).value;
  }

  /** A non-empty text that passes the Number cast is stored as `Number(..)` reads it. */
  lemma NumberCastReadsText(v: Json)
    ensures v.Str? && v.s != "" && CastNumber(v).Success? ==>
      StringToNumber(v.s).Some? && CastNumber(v).value == StringToNumber(v.s) && CastViews(v) == CastNumber(v)
  {
  }

  /** A String path longer than 255 units is a violation. */
  lemma ConstraintsAreEnforced(d: Draft)
    ensures d.price.Str? && JsLength(d.price.s) > MaxLength ==> Violation(PricePath) in Violations(d)
    ensures d.address.Str? && JsLength(d.address.s) > MaxLength ==> Violation(AddressPath) in Violations(d)
    ensures d.title.Str? && JsLength(d.title.s) > MaxLength ==> Violation(TitlePath) in Violations(d)
  {
    ViolatedIffFailed(d);
  }

  /** A location of another type than "Point", or an unknown property type, is a violation. */
  lemma LocationAndTypeEnforced(d: Draft)
    ensures d.location.Some? && d.location.value.kind != "Point" ==> Violation(LocationTypePath) in Violations(d)
    ensures d.propertytype.Str? && ParsePropertyType(d.propertytype.s).None? ==> Violation(PropertyTypePath) in Violations(d)
  {
    ViolatedIffFailed(d);
  }

  /** A path is reported exactly when its value fails the path's cast or validator. */
  lemma ViolatedIffFailed(d: Draft)
    ensures forall p :: Violation(p) in Violations(d) <==> Failed(d, p)
  {
    LeadingIffFailed(d);
    TrailingIffFailed(d);
    assert forall p :: Violation(p) in IdViolations(d) <==> p == IdPath && Failed(d, p);
  }

  /** The paths `LeadingViolations` covers. */
  predicate IsLeading(p: Path) {
    p.PricePath? || p.AddressPath? || p.PropertyTypePath? || p.BedroomsPath?
    || p.BathroomsPath? || p.LandsizePath? || p.LandsizeTypePath? || p.CarparkPath?
  }

  lemma LeadingIffFailed(d: Draft)
    ensures forall p :: Violation(p) in LeadingViolations(d) <==> IsLeading(p) && Failed(d, p)
  {
  }

  /** The paths `TrailingViolations` covers. */
  predicate IsTrailing(p: Path) {
    p.LocationTypePath? || p.TitlePath? || p.PublishedPath? || p.ActionPath?
    || p.ViewsPath? || p.StatusPath? || p.InspectionTimePath?
  }

  lemma TrailingIffFailed(d: Draft)
    ensures forall p :: Violation(p) in TrailingViolations(d) <==> IsTrailing(p) && Failed(d, p)
  {
  }

  // ---- the collection ----

  /** A database error: its name, message and, for a duplicate key, code 11000. */
  datatype DbError = DbError(name: string, message: string, code: Option<int>)

  /** The value a path's error message quotes: the draft's value at that path. */
  function RawValue(d: Draft, p: Path): Json {
    match p
    case PricePath => d.price
    case AddressPath => d.address
    case PropertyTypePath => d.propertytype
    case BedroomsPath => d.bedrooms
    case BathroomsPath => d.bathrooms
    case LandsizePath => d.landsize
    case LandsizeTypePath => d.landsizetype
    case CarparkPath => d.carpark
    case LocationTypePath => if d.location.Some? then Str(d.location.value.kind) else Undefined
    case TitlePath => d.title
    case PublishedPath => d.published
    case ActionPath => d.action
    case ViewsPath => d.views
    case StatusPath => d.status
    case InspectionTimePath => d.inspectionTime
    case IdPath => d.givenId
  }

  /**
   * A value as an error message shows it: its text where the String cast
   * has one; arrays and other objects by a placeholder.
   */
  function ShownValue(v: Json): string {
    match CastString(v)
    case Success(Some(text)) => text
    case Success(None) => if v.Null? then "null" else "undefined"
    case Failure(_) => if v.Arr? then "[array]" else "[object]"
  }

  /** The value the error of path `p` quotes. */
  function Shown(d: Draft, p: Path): string {
    ShownValue(RawValue(d, p))
  }

  /** One path's entry in the message: the path, then its error quoting the value. */
  function Item(d: Draft, v: Violation): string {
    PathName(v.path) + ": " + Shown(d, v.path)
  }

  /** The entries of the violated paths, joined by ", ". */
  function Details(d: Draft, vs: seq<Violation>): string
    decreases |vs|
  {
    if vs == [] then "" else if |vs| == 1 then Item(d, vs[0]) else Item(d, vs[0]) + ", " + Details(d, vs[1..])
  }

  /**
   * The validation error: each failed path with the value its error quotes
   * (the validators' own wording around the value is not modelled).
   */
  function ValidationFailure(d: Draft, vs: seq<Violation>): DbError {
    DbError("ValidationError", "Ad validation failed: " + Details(d, vs), None)
  }

  lemma PathNameLacksN(p: Path)
    ensures 'N' !in PathName(p)
  {
  }

  lemma PathNameLacksG(p: Path)
    ensures 'G' !in PathName(p)
  {
  }

  /** A text that starts with 'N' or 'G' and holds no ',': the geocoder's markers are such texts. */
  predicate MarkerLike(t: string) {
    t != [] && (t[0] == 'N' || t[0] == 'G') && ',' !in t
  }

  lemma MarkersAreMarkerLike()
    ensures MarkerLike("No results found") && MarkerLike("Google API Error")
  {
  }

  /** A marker occurs in an entry exactly when it occurs in the value the entry quotes. */
  lemma ItemIncludes(d: Draft, v: Violation, t: string)
    requires MarkerLike(t)
    ensures Includes(Item(d, v), t) <==> Includes(Shown(d, v.path), t)
  {
    PathNameLacksN(v.path);
    PathNameLacksG(v.path);
    var lead := PathName(v.path) + ": ";
    assert t[0] !in lead by {
      assert forall i :: 0 <= i < |lead| ==> lead[i] == if i < |PathName(v.path)| then PathName(v.path)[i] else ": "[i - |PathName(v.path)|];
    }
    assert Item(d, v) == lead + Shown(d, v.path);
    SkipPrefix(lead, Shown(d, v.path), t);
  }

  /** One of the values the errors of `vs` quote holds `t`. */
  predicate Quotes(d: Draft, vs: seq<Violation>, t: string) {
    exists i :: 0 <= i < |vs| && Includes(Shown(d, vs[i].path), t)
  }

  /** Holding `t` in a quoted value splits into the first violation and the rest. */
  lemma QuotesCons(d: Draft, vs: seq<Violation>, t: string)
    requires vs != []
    ensures Quotes(d, vs, t) <==> Includes(Shown(d, vs[0].path), t) || Quotes(d, vs[1..], t)
  {
    if Quotes(d, vs[1..], t) {
      var k :| 0 <= k < |vs[1..]| && Includes(Shown(d, vs[1..][k].path), t);
      assert vs[k + 1] == vs[1..][k];
    }
    if Quotes(d, vs, t) && !Includes(Shown(d, vs[0].path), t) {
      var k :| 0 <= k < |vs| && Includes(Shown(d, vs[k].path), t);
      assert vs[1..][k - 1] == vs[k];
    }
  }

  /** A marker occurs in the entries exactly when one of the quoted values holds it. */
  lemma {:induction false} DetailsIncludes(d: Draft, vs: seq<Violation>, t: string)
    requires MarkerLike(t)
    ensures Includes(Details(d, vs), t) <==> Quotes(d, vs, t)
    decreases |vs|
  {
    if vs == [] {
      assert !StartsWith("", t);
    } else if |vs| == 1 {
      ItemIncludes(d, vs[0], t);
      QuotesCons(d, vs, t);
    } else {
      var rest := Details(d, vs[1..]);
      assert Details(d, vs) == Item(d, vs[0]) + (", " + rest);
      ItemIncludes(d, vs[0], t);
      DetailsIncludes(d, vs[1..], t);
      StopAt(Item(d, vs[0]), ", " + rest, t);
      SkipPrefix(", ", rest, t);
      QuotesCons(d, vs, t);
    }
  }

  /** The value of every failed path is quoted in the validation message. */
  lemma FailedValueIsQuoted(d: Draft, p: Path)
    requires Failed(d, p)
    ensures Quotes(d, Violations(d), Shown(d, p))
  {
    ViolatedIffFailed(d);
    var vs := Violations(d);
    var i :| 0 <= i < |vs| && vs[i] == Violation(p);
    assert StartsWith(Shown(d, vs[i].path), Shown(d, p));
  }

  /** A property type "No results found" is no type name, and the message quotes it. */
  lemma MarkerPropertyTypeIsQuoted(d: Draft)
    requires d.propertytype == Str("No results found")
    ensures Violations(d) != [] && Quotes(d, Violations(d), "No results found")
  {
    assert ParsePropertyType("No results found").None?;
    assert Failed(d, PropertyTypePath) && Shown(d, PropertyTypePath) == "No results found";
    FailedValueIsQuoted(d, PropertyTypePath);
  }

  /**
   * The validation message holds a marker exactly when one of the values it
   * quotes does: a value can make the message look like a geocoder failure.
   */
  lemma ValidationMessageQuotes(d: Draft, vs: seq<Violation>, t: string)
    requires MarkerLike(t)
    ensures Includes(ValidationFailure(d, vs).message, t) <==> Quotes(d, vs, t)
  {
    var head := "Ad validation failed: ";
    assert t[0] !in head;
    SkipPrefix(head, Details(d, vs), t);
    DetailsIncludes(d, vs, t);
  }

  /** The pieces of the database's duplicate-key message around the slug. */
  const DuplicateKeyText := "E11000 duplicate key error"
  const SlugIndexText := " index: slug_1 dup key: "
  const SlugOpen := "{ slug: \""
  const SlugClose := "\" }"

  /** The duplicate-key error of the unique slug index. */
  function DuplicateSlug(slug: string): DbError {
    DbError("MongoServerError", DuplicateKeyText + SlugIndexText + SlugOpen + slug + SlugClose, Some(11000))
  }

  /**
   * The `_id` a body gives is checked by the ObjectId cast: a text is
   * reported exactly when it is not 24 hexadecimal digits, and an absent
   * `_id` never is.
   */
  lemma MalformedIdViolates(d: Draft)
    ensures d.givenId.Str? ==> (Violation(IdPath) in Violations(d) <==> !IsObjectIdText(d.givenId.s))
    ensures d.givenId.Undefined? ==> Violation(IdPath) !in Violations(d)
  {
    ViolatedIffFailed(d);
  }

  /** The pieces of the duplicate-key message of the `_id` index. */
  const IdIndexText := " index: _id_ dup key: "
  const IdOpen := "{ _id: ObjectId('"
  const IdClose := "') }"

  /** The duplicate-key error of the `_id` index. */
  function DuplicateId(id: string): DbError {
    DbError("MongoServerError", DuplicateKeyText + IdIndexText + IdOpen + id + IdClose, Some(11000))
  }

  predicate SlugTaken(ads: seq<Ad>, slug: string) {
    exists i :: 0 <= i < |ads| && ads[i].slug == slug
  }

  predicate IdTaken(ads: seq<Ad>, id: string) {
    exists i :: 0 <= i < |ads| && ads[i].id == id
  }

  /** Every stored listing is well formed and no two share an object id or a slug. */
  predicate ValidCollection(ads: seq<Ad>) {
    && (forall i :: 0 <= i < |ads| ==> WellFormed(ads[i]))
    && (forall i, j :: 0 <= i < j < |ads| ==> ads[i].id != ads[j].id)
    && (forall i, j :: 0 <= i < j < |ads| ==> ads[i].slug != ads[j].slug)
  }

  /** `new Ad(draft).save()`: validation first, then the unique `_id` index, then the unique slug index. */
  function SaveOutcome(ads: seq<Ad>, d: Draft, id: string): (Result<Ad, DbError>, seq<Ad>) {
    var vs := Violations(d);
    if vs != [] then (Failure(ValidationFailure(d, vs)), ads)
    else if IdTaken(ads, StoredId(d, id)) then (Failure(DuplicateId(StoredId(d, id))), ads)
    else if SlugTaken(ads, ToLower(d.slug)) then (Failure(DuplicateSlug(ToLower(d.slug))), ads)
    else (Success(Cast(d, id)), ads + [Cast(d, id)])
  }

  /**
   * The stored id is the draft's own `_id`, lower-cased, when the body gives
   * one, and the assigned `id` when it does not.
   */
  lemma StoredIdSource(d: Draft, id: string)
    ensures d.givenId.Undefined? ==> StoredId(d, id) == id
    ensures d.givenId.Str? && IsObjectIdText(d.givenId.s) ==> StoredId(d, id) == ToLower(d.givenId.s)
    ensures HasStringId(d.givenId) && IsObjectIdText(d.givenId.fields["_id"].s)
            ==> StoredId(d, id) == ToLower(d.givenId.fields["_id"].s)
  {
  }

  /**
   * A save keeps the collection valid; it succeeds exactly when the draft
   * has no violation and both its object id and its lower-cased slug are
   * free, appending the cast listing, and otherwise changes nothing. A
   * taken id or slug is reported with code 11000.
   */
  lemma SaveKeepsCollectionValid(ads: seq<Ad>, d: Draft, id: string)
    requires ValidCollection(ads)
    ensures var out := SaveOutcome(ads, d, id);
      && ValidCollection(out.1)
      && (out.0.Success? <==> Violations(d) == [] && !IdTaken(ads, StoredId(d, id)) && !SlugTaken(ads, ToLower(d.slug)))
      && (out.0.Success? ==> out.1 == ads + [out.0.value] && out.0.value == Cast(d, id))
      && (out.0.Failure? ==> out.1 == ads)
      && (Violations(d) == [] && (IdTaken(ads, StoredId(d, id)) || SlugTaken(ads, ToLower(d.slug)))
          ==> out.0.error.code == Some(11000))
  {
    if Violations(d) == [] && !IdTaken(ads, StoredId(d, id)) && !SlugTaken(ads, ToLower(d.slug)) {
      CastIsWellFormed(d, id);
      var ad := Cast(d, id);
      var after := ads + [ad];
      forall i, j | 0 <= i < j < |after| ensures after[i].id != after[j].id && after[i].slug != after[j].slug {
        if j == |ads| {
          assert after[i] == ads[i];
        }
      }
    }
  }

  /** The unique index's lookup: whether a stored listing already has `slug`. */
  method SlugInUse(ads: seq<Ad>, slug: string) returns (taken: bool)
    ensures taken == SlugTaken(ads, slug)
  {
    var i := 0;
    while i < |ads|
      invariant 0 <= i <= |ads|
      invariant forall j :: 0 <= j < i ==> ads[j].slug != slug
    {
      if ads[i].slug == slug {
        return true;
      }
      i := i + 1;
    }
    return false;
  }

  /** The `_id` index's lookup: whether a stored listing already has object id `id`. */
  method IdInUse(ads: seq<Ad>, id: string) returns (taken: bool)
    ensures taken == IdTaken(ads, id)
  {
    var i := 0;
    while i < |ads|
      invariant 0 <= i <= |ads|
      invariant forall j :: 0 <= j < i ==> ads[j].id != id
    {
      if ads[i].id == id {
        return true;
      }
      i := i + 1;
    }
    return false;
  }

  /** The listing collection. */
  class AdCollection {
    var ads: seq<Ad>

    constructor ()
      ensures ads == []
    {
      ads := [];
    }

    /** `save()` of a new listing; `id` is the object id the database assigns. */
    method Save(d: Draft, id: string) returns (r: Result<Ad, DbError>)
      modifies this
      ensures (r, ads) == SaveOutcome(old(ads), d, id)
    {
      var vs := Violations(d);
      if vs != [] {
        return Failure(ValidationFailure(d, vs));
      }
      var stored := StoredId(d, id);
      var clash := IdInUse(ads, stored);
      if clash {
        return Failure(DuplicateId(stored));
      }
      var slug := ToLower(d.slug);
      var taken := SlugInUse(ads, slug);
      if taken {
        return Failure(DuplicateSlug(slug));
      }
      var ad := Cast(d, id);
      ads := ads + [ad];
      r := Success(ad);
    }
  }
}
