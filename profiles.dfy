/**
 * The image optimisation profiles of the listing-media handlers and the
 * lookup that picks one from the `profile` query parameter.
 */
module Profiles {
  import opened Wrappers

  datatype Fit = Cover | Inside
  datatype Format = Jpeg | Webp

  /** Resize and re-encode parameters handed to the image codec. */
  datatype Profile = Profile(quality: nat, width: nat, height: nat, fit: Fit, format: Format)

  const Thumbnail := Profile(70, 400, 400, Cover, Jpeg)
  const Standard := Profile(80, 1200, 800, Inside, Jpeg)
  const HighQuality := Profile(90, 1920, 1080, Inside, Jpeg)
  const WebpProfile := Profile(80, 1200, 800, Inside, Webp)

  /** `OPTIMIZATION_PROFILES`: its four own keys. */
  const Table: map<string, Profile> :=
    map["thumbnail" := Thumbnail, "standard" := Standard, "highQuality" := HighQuality, "webp" := WebpProfile]

  /** The subtype part of the processed file's MIME type, `image/${format}`. */
  function FormatName(f: Format): string {
    match f
    case Jpeg => "jpeg"
    case Webp => "webp"
  }

  /**
   * `getOptimizationProfile(profileName)`: the named profile when the name is
   * one of the table's own keys, `standard` otherwise (absent, empty or unknown).
   */
  function GetOptimizationProfile(name: Option<string>): (p: Profile)
    ensures name.Some? && name.value in Table ==> p == Table[name.value]
    ensures name.None? || name.value !in Table ==> p == Standard
    ensures p in Table.Values
  {
    assert Table["standard"] == Standard;
    if name.None? || name.value == "" || name.value !in Table then Standard else Table[name.value]
  }

  /** Only the profile named `webp` re-encodes to WebP; every other name yields JPEG. */
  lemma OnlyWebpNameGivesWebp(name: Option<string>)
    ensures GetOptimizationProfile(name).format == Webp <==> name == Some("webp")
  {
    if name.Some? && name.value in Table {
      assert name.value in {"thumbnail", "standard", "highQuality", "webp"};
    }
  }

  /** Every profile has a quality in 1..100 and positive target dimensions. */
  lemma ProfilesAreWellFormed(name: Option<string>)
    ensures var p := GetOptimizationProfile(name);
      0 < p.quality <= 100 && p.width > 0 && p.height > 0
  {
  }

  /** The names a plain JavaScript object inherits from `Object.prototype`; each reads as a truthy value. */
  const InheritedNames: set<string> := {
    "constructor", "__proto__", "hasOwnProperty", "isPrototypeOf", "propertyIsEnumerable",
    "toString", "valueOf", "toLocaleString", "__defineGetter__", "__defineSetter__",
    "__lookupGetter__", "__lookupSetter__"
  }

  /** What `OPTIMIZATION_PROFILES[profileName]` yields: an own profile, or an inherited member that is not a profile. */
  datatype Lookup = Own(profile: Profile) | Inherited(member: string)

  /**
   * The lookup as written: `!OPTIMIZATION_PROFILES[profileName]` is false for
   * inherited members too, so `?profile=constructor` returns the `Object`
   * function instead of falling back to `standard`.
   */
  function LookupAsWritten(name: Option<string>): (r: Lookup)
    ensures r.Inherited? <==> name.Some? && name.value !in Table && name.value in InheritedNames
  {
    if name.None? || name.value == "" then Own(Standard)
    else if name.value in Table then Own(Table[name.value])
    else if name.value in InheritedNames then Inherited(name.value)
    else Own(Standard)
  }

  /** The query `?profile=constructor` passes the guard and yields no profile at all. */
  lemma InheritedNameEscapesFallback()
    ensures LookupAsWritten(Some("constructor")) == Inherited("constructor")
    ensures GetOptimizationProfile(Some("constructor")) == Standard
  {
  }

  /** Apart from inherited names, the lookup as written and the corrected one agree. */
  lemma LookupsAgreeOnOtherNames(name: Option<string>)
    requires name.None? || name.value !in InheritedNames
    ensures LookupAsWritten(name) == Own(GetOptimizationProfile(name))
  {
  }
}
