/**
 * The upload middlewares: the MIME-type filters and the limits of the two
 * multer configurations (the one the routes use and the shared one).
 */
module UploadFilters {
  import opened Wrappers

  /** A file filter's verdict, `cb(null, true)` or `cb(new Error(message), false)`. */
  datatype Verdict = Accept | Reject(message: string)

  /** The types the route middleware accepts. */
  const MiddlewareValidTypes: seq<string> := ["image/jpeg", "image/png", "image/jpg", "image/webp"]

  /** The route middleware's `fileFilter`. */
  function MiddlewareFileFilter(mimetype: string): (v: Verdict)
    ensures v.Accept? <==> mimetype in MiddlewareValidTypes
    ensures v.Reject? ==> v.message == "Invalid file type. Only JPEG/PNG/WEBP allowed"
  {
    if mimetype in MiddlewareValidTypes then Accept else Reject("Invalid file type. Only JPEG/PNG/WEBP allowed")
  }

  /** `VALID_MIME_TYPES` of the shared configuration. */
  const ValidMimeTypes: seq<string> := ["image/jpeg", "image/png", "image/jpg", "image/webp"]

  /** `MAX_FILE_SIZE`: 10 MiB. */
  const MaxFileSize: nat := 10 * 1024 * 1024

  /** `parts.join(sep)`. */
  function Join(parts: seq<string>, sep: string): string {
    if parts == [] then ""
    else if |parts| == 1 then parts[0]
    else parts[0] + sep + Join(parts[1..], sep)
  }

  /** The shared configuration's `fileFilter`: the message lists the accepted types. */
  function ConfigFileFilter(mimetype: string): (v: Verdict)
    ensures v.Accept? <==> mimetype in ValidMimeTypes
    ensures v.Reject? ==> v.message == "Invalid file type. Only " + Join(ValidMimeTypes, ", ") + " allowed"
  {
    if mimetype in ValidMimeTypes then Accept
    else Reject("Invalid file type. Only " + Join(ValidMimeTypes, ", ") + " allowed")
  }

  /** Both filters accept the same four types, and each rejects everything else. */
  lemma FiltersAgree(mimetype: string)
    ensures MiddlewareFileFilter(mimetype).Accept? == ConfigFileFilter(mimetype).Accept?
    ensures MiddlewareFileFilter(mimetype).Accept? <==>
      mimetype == "image/jpeg" || mimetype == "image/png" || mimetype == "image/jpg" || mimetype == "image/webp"
  {
  }

  datatype Filter = MiddlewareFilter | ConfigFilter

  function Check(f: Filter, mimetype: string): Verdict {
    match f
    case MiddlewareFilter => MiddlewareFileFilter(mimetype)
    case ConfigFilter => ConfigFileFilter(mimetype)
  }

  /** multer's `limits`: `fileSize` per file and, when given, the total number of `files`. */
  datatype Limits = Limits(fileSize: nat, files: Option<nat>)

  /** An expected file field and the most files it may carry. */
  datatype Field = Field(name: string, maxCount: nat)

  /** A multer middleware: filter, limits and expected fields (`single(n)` is one field of count 1). */
  datatype Upload = Upload(filter: Filter, limits: Limits, fields: seq<Field>)

  /** `uploadSingle`: field `image`, 10 MiB. */
  const UploadSingle := Upload(MiddlewareFilter, Limits(10 * 1024 * 1024, None), [Field("image", 1)])

  /** `uploadMultiple`: field `images`, at most 5 files of 10 MiB each. */
  const UploadMultiple := Upload(MiddlewareFilter, Limits(10 * 1024 * 1024, Some(5)), [Field("images", 5)])

  /** The shared configuration's limits: 10 MiB and `files: 1`, for every export. */
  const SharedLimits := Limits(MaxFileSize, Some(1))

  const ConfigSingleImage := Upload(ConfigFilter, SharedLimits, [Field("image", 1)])
  const ConfigMultipleImages := Upload(ConfigFilter, SharedLimits, [Field("images", 5)])
  const ConfigMixedUpload := Upload(ConfigFilter, SharedLimits, [Field("avatar", 1), Field("gallery", 5)])

  /** One file part of a multipart request. */
  datatype Part = Part(fieldname: string, mimetype: string, size: nat)

  function CountField(parts: seq<Part>, name: string): (n: nat)
    ensures n <= |parts|
  {
    if parts == [] then 0 else (if parts[0].fieldname == name then 1 else 0) + CountField(parts[1..], name)
  }

  predicate Expected(u: Upload, name: string) {
    exists i :: 0 <= i < |u.fields| && u.fields[i].name == name
  }

  /**
   * The request's files pass the middleware: each is in an expected field,
   * within the size limit and of an accepted type; no field exceeds its count
   * and the total respects the `files` limit.
   */
  predicate Admits(u: Upload, parts: seq<Part>) {
    && (forall i :: 0 <= i < |parts| ==> Expected(u, parts[i].fieldname))
    && (forall i :: 0 <= i < |parts| ==> parts[i].size <= u.limits.fileSize)
    && (forall i :: 0 <= i < |parts| ==> Check(u.filter, parts[i].mimetype).Accept?)
    && (forall j :: 0 <= j < |u.fields| ==> CountField(parts, u.fields[j].name) <= u.fields[j].maxCount)
    && (u.limits.files.Some? ==> |parts| <= u.limits.files.value)
  }

  /** When every part is in the same field, that field's count is the number of parts. */
  lemma {:induction false} CountSingleField(parts: seq<Part>, name: string)
    requires forall i :: 0 <= i < |parts| ==> parts[i].fieldname == name
    ensures CountField(parts, name) == |parts|
  {
    if parts != [] {
      CountSingleField(parts[1..], name);
    }
  }

  /** The route's batch middleware lets through at most five files, and five do pass. */
  lemma UploadMultipleAdmitsFive(parts: seq<Part>)
    ensures Admits(UploadMultiple, parts) ==> |parts| <= 5
    ensures var five := seq(5, _ => Part("images", "image/png", 1));
      Admits(UploadMultiple, five)
  {
    var five := seq(5, _ => Part("images", "image/png", 1));
    CountSingleField(five, "images");
    if Admits(UploadMultiple, parts) {
      forall i | 0 <= i < |parts| ensures parts[i].fieldname == "images" {
        assert Expected(UploadMultiple, parts[i].fieldname);
      }
      CountSingleField(parts, "images");
      assert CountField(parts, UploadMultiple.fields[0].name) <= 5;
    }
  }

  /** The single-file middleware admits at most one file, of field `image`. */
  lemma UploadSingleAdmitsOne(parts: seq<Part>)
    requires Admits(UploadSingle, parts)
    ensures |parts| <= 1
    ensures forall i :: 0 <= i < |parts| ==> parts[i].fieldname == "image"
  {
    forall i | 0 <= i < |parts| ensures parts[i].fieldname == "image" {
      assert Expected(UploadSingle, parts[i].fieldname);
    }
    CountSingleField(parts, "image");
    assert CountField(parts, UploadSingle.fields[0].name) <= 1;
  }

  /** The shared `files: 1` limit caps every export at one file, `array('images', 5)` included. */
  lemma SharedLimitCapsEveryExport(parts: seq<Part>)
    ensures Admits(ConfigSingleImage, parts) ==> |parts| <= 1
    ensures Admits(ConfigMultipleImages, parts) ==> |parts| <= 1
    ensures Admits(ConfigMixedUpload, parts) ==> |parts| <= 1
    ensures !Admits(ConfigMultipleImages, [Part("images", "image/png", 1), Part("images", "image/png", 1)])
  {
  }

  /** A file over 10 MiB is refused by every middleware. */
  lemma OversizeRefused(u: Upload, p: Part)
    requires u in {UploadSingle, UploadMultiple, ConfigSingleImage, ConfigMultipleImages, ConfigMixedUpload}
    requires p.size > 10 * 1024 * 1024
    ensures !Admits(u, [p])
  {
    assert [p][0] == p;
  }
}
