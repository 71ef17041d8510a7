/**
 * The listing-media handlers: image upload (one file or a batch), the
 * storage-key ownership check, and image removal (one key or a batch).
 * The image codec is an oracle that may fail; the storage service is the
 * `Bucket` of the storage gateway, whose faults come in as parameters.
 */
module Media {
  import opened Wrappers
  import opened JsValues
  import opened AppErrors
  import opened S3Keys
  import opened Profiles
  import opened ObjectStore

  /** The image codec: resize and re-encode a buffer under a profile, or fail with a message. */
  type Codec = (Buffer, Profile) -> Result<Buffer, string>

  /** `new AppError(message, code)` thrown. */
  function Raise(message: string, code: int, at: Moment): Thrown
    requires 100 <= code <= 999
  {
    App(Make(message, code, at))
  }

  // ---- validateKeyOwnership ----

  /**
   * `validateKeyOwnership(key, userId)`: `None` when the check passes. A falsy
   * key is a 400, a string outside the caller's `uploads/{userId}/` prefix a
   * 403; a truthy non-string has no `startsWith` and throws a `TypeError`.
   */
  function ValidateKeyOwnership(key: Json, userId: string, at: Moment): (r: Option<Thrown>)
    ensures r.None? <==> key.Str? && StartsWith(key.s, OwnerPrefix(userId))
    ensures !Truthy(key) ==> r == Some(Raise("Image key is required", 400, at))
    ensures key.Str? && key.s != "" && !StartsWith(key.s, OwnerPrefix(userId)) ==>
      r == Some(Raise("Unauthorized to access this resource", 403, at))
    ensures Truthy(key) && !key.Str? ==> r.Some? && r.value.Native? && r.value.name == "TypeError"
  {
    if !Truthy(key) then Some(Raise("Image key is required", 400, at))
    else if !key.Str? then Some(Native("TypeError", "key.startsWith is not a function", None))
    else if !StartsWith(key.s, OwnerPrefix(userId)) then Some(Raise("Unauthorized to access this resource", 403, at))
    else None
  }

  /** Every key the gateway generates for a user passes that user's ownership check. */
  lemma GeneratedKeysPassOwnership(originalName: string, userId: string, timestamp: nat, at: Moment)
    ensures ValidateKeyOwnership(Str(GenerateS3Key(originalName, userId, timestamp)), userId, at).None?
  {
    GeneratedKeyShape(originalName, userId, timestamp);
  }

  /**
   * With user ids free of '/' (database object ids are hex), a key generated
   * for one user is refused with 403 for every other user.
   */
  lemma OwnershipSeparatesUsers(originalName: string, owner: string, other: string, timestamp: nat, at: Moment)
    requires '/' !in owner && '/' !in other && owner != other
    ensures ValidateKeyOwnership(Str(GenerateS3Key(originalName, owner, timestamp)), other, at)
         == Some(Raise("Unauthorized to access this resource", 403, at))
  {
    GeneratedKeyShape(originalName, owner, timestamp);
    OwnerPrefixesSeparate(other, owner, KeyLeaf(originalName, timestamp));
  }

  /** `uploads/{u}/` is not a prefix of anything under `uploads/{v}/` when `u`, `v` differ and hold no '/'. */
  lemma OwnerPrefixesSeparate(u: string, v: string, tail: string)
    requires '/' !in u && '/' !in v && u != v
    ensures !StartsWith(OwnerPrefix(v) + tail, OwnerPrefix(u))
  {
    var k := OwnerPrefix(v) + tail;
    var p := OwnerPrefix(u);
    var d: nat;
    if |u| < |v| {
      d := 8 + |u|;
      FolderChar(v, tail, |u|);
      FolderSlash(u, "");
    } else if |v| < |u| {
      d := 8 + |v|;
      FolderSlash(v, tail);
      FolderChar(u, "", |v|);
    } else {
      var i :| 0 <= i < |u| && u[i] != v[i];
      d := 8 + i;
      FolderChar(v, tail, i);
      FolderChar(u, "", i);
    }
    assert p == OwnerPrefix(u) + "";
    assert d < |p| && d < |k| && k[d] != p[d];
    if |p| <= |k| {
      assert k[..|p|][d] == k[d];
    }
  }

  /** Inside `uploads/{id}/` followed by anything, position 8 + i holds the i-th character of the id. */
  lemma FolderChar(id: string, tail: string, i: nat)
    requires i < |id|
    ensures |OwnerPrefix(id) + tail| == 9 + |id| + |tail|
    ensures (OwnerPrefix(id) + tail)[8 + i] == id[i]
  {
    assert OwnerPrefix(id) + tail == "uploads/" + (id + ("/" + tail));
  }

  /** Inside `uploads/{id}/` followed by anything, the '/' closing the folder sits at 8 + |id|. */
  lemma FolderSlash(id: string, tail: string)
    ensures |OwnerPrefix(id) + tail| == 9 + |id| + |tail|
    ensures (OwnerPrefix(id) + tail)[8 + |id|] == '/'
  {
    assert OwnerPrefix(id) + tail == ("uploads/" + id) + ("/" + tail);
  }

  // ---- processImage and generateFileMetadata ----

  /** `processImage(buffer, profile)`: the codec's output, or its failure as a 400. */
  function ProcessImage(buffer: Buffer, profile: Profile, codec: Codec, at: Moment): (r: Result<Buffer, Thrown>)
    ensures r.Success? <==> codec(buffer, profile).Success?
    ensures r.Success? ==> r.value == codec(buffer, profile).value
    ensures r.Failure? ==> r.error == Raise("Image processing failed: " + codec(buffer, profile).error, 400, at)
  {
    match codec(buffer, profile)
    case Success(out) => Success(out)
    case Failure(m) => Failure(Raise("Image processing failed: " + m, 400, at))
  }

  /** The file handed to the gateway: the processed buffer, typed by the profile's format. */
  function ProcessedFile(file: UploadFile, output: Buffer, profile: Profile): UploadFile {
    file.(buffer := output, mimetype := "image/" + FormatName(profile.format))
  }

  /**
   * `Math.round((1 - optimized / original) * 100)` in exact arithmetic: the
   * percentage nearest to the saving, halves rounded up. With an empty
   * original the division is not finite and the JSON reply carries `null`.
   */
  function Reduction(original: nat, optimized: nat): (r: Option<int>)
    ensures r.None? <==> original == 0
    ensures r.Some? ==>
      2 * original * r.value - original <= 200 * (original - optimized) < 2 * original * r.value + original
  {
    if original == 0 then None
    else
      var num := 200 * (original - optimized) + original;
      var q := num / (2 * original);
      assert num == q * (2 * original) + num % (2 * original);
      Some(q)
  }

  /** Only one integer lies within half a point of the saving, so the rounding is well defined. */
  lemma ReductionIsNearest(original: nat, optimized: nat, q: int)
    requires original > 0
    requires 2 * original * q - original <= 200 * (original - optimized) < 2 * original * q + original
    ensures Reduction(original, optimized) == Some(q)
  {
    var r := Reduction(original, optimized).value;
    BracketUnique(original, 200 * (original - optimized), q, r);
  }

  /** Two integers whose half-open brackets of width `2 * o` both hold `x` are equal. */
  lemma BracketUnique(o: int, x: int, q: int, r: int)
    requires o > 0
    requires 2 * o * q - o <= x < 2 * o * q + o
    requires 2 * o * r - o <= x < 2 * o * r + o
    ensures q == r
  {
    if q < r {
      MulMonotone(2 * o, q + 1, r);
    } else if r < q {
      MulMonotone(2 * o, r + 1, q);
    }
  }

  lemma MulMonotone(k: int, a: int, b: int)
    requires k > 0 && a <= b
    ensures k * a <= k * b
  {
    assert k * b == k * a + k * (b - a);
  }

  /** A file that did not grow saves between 0 and 100 percent. */
  lemma ReductionIsPercentage(original: nat, optimized: nat)
    requires 0 < original && optimized <= original
    ensures 0 <= Reduction(original, optimized).value <= 100
  {
    var r := Reduction(original, optimized).value;
    if r < 0 {
      MulMonotone(2 * original, r, -1);
    }
    if r > 100 {
      MulMonotone(2 * original, 101, r);
    }
  }

  datatype SizeInfo = SizeInfo(original: nat, optimized: nat, reduction: Option<int>, unit: string)

  /** The per-file record of an upload reply. */
  datatype FileMeta = FileMeta(url: string, key: string, size: SizeInfo, format: string, width: nat, height: nat,
                               lastModified: string)

  /** `generateFileMetadata(file, processedBuffer, optimization, s3Result)`, stamped `now`. */
  function GenerateFileMetadata(file: UploadFile, output: Buffer, profile: Profile, stored: UploadResult, now: string): FileMeta {
    FileMeta(stored.location, stored.key,
             SizeInfo(file.size, |output|, Reduction(file.size, |output|), "%"),
             FormatName(profile.format), profile.width, profile.height, now)
  }

  // ---- replies ----

  datatype FailedFile = FailedFile(filename: string, error: string)
  datatype FailedDelete = FailedDelete(key: string, error: string)

  /** The JSON bodies the media handlers send. */
  datatype Body =
    | OneUploaded(status: string, data: FileMeta)
    | ManyUploaded(status: string, successful: seq<FileMeta>, failed: seq<FailedFile>)
    | OneDeleted(status: string, message: string, key: string, deletedAt: string)
    | AllDeleted(status: string, message: string, deletedCount: nat, deletedAt: string)
    | SomeDeleted(status: string, message: string, deletedCount: nat, failedCount: nat,
                  failedDeletes: seq<FailedDelete>, deletedAt: string)

  /** A handler's effect on the response: `res.status(code).json(body)`, or `next(err)`. */
  datatype Reply = Respond(code: nat, body: Body) | Next(err: Thrown)

  const NoFileMessage := "No file uploaded. Use field name \"image\""
  const NoFilesMessage := "No files uploaded. Use field name \"images\""

  // ---- uploadSingleImage ----

  /**
   * `uploadSingleImage`: the reply and the bucket afterwards. `clock` and
   * `faults` are the gateway's clock readings and put failures, `now` the
   * time stamped on the reply.
   */
  function SingleUploadOutcome(bucket: string, region: string, objects: Objects, file: Option<UploadFile>,
                               profile: Option<string>, userId: string, codec: Codec, clock: nat -> nat,
                               faults: nat -> Option<Fault>, at: Moment, now: string): (Reply, Objects)
  {
    if file.None? then (Next(Raise(NoFileMessage, 400, at)), objects)
    else
      var f := file.value;
      var p := GetOptimizationProfile(profile);
      match ProcessImage(f.buffer, p, codec, at)
      case Failure(e) => (Next(e), objects)
      case Success(out) =>
        var batch := [ProcessedFile(f, out, p)];
        var stored := UploadOutcome(bucket, region, objects, Some(batch), userId, clock, faults, at);
        match stored.0
        case Failure(e) => (Next(e), stored.1)
        case Success(results) =>
          UploadResultsMatchFiles(bucket, region, objects, batch, userId, clock, faults, at);
          (Respond(200, OneUploaded("success", GenerateFileMetadata(f, out, p, results[0], now))), stored.1)
  }

  /**
   * A single upload stores nothing unless a file came and was processed; a
   * 200 reply names the file's generated key, owned by the caller, under
   * which the processed buffer is now stored with the profile's image type;
   * every other outcome is an error passed on.
   */
  lemma SingleUploadSemantics(bucket: string, region: string, objects: Objects, file: Option<UploadFile>,
                              profile: Option<string>, userId: string, codec: Codec, clock: nat -> nat,
                              faults: nat -> Option<Fault>, at: Moment, now: string)
    ensures var out := SingleUploadOutcome(bucket, region, objects, file, profile, userId, codec, clock, faults, at, now);
      && (file.None? ==> out == (Next(Raise(NoFileMessage, 400, at)), objects))
      && (file.Some? && codec(file.value.buffer, GetOptimizationProfile(profile)).Failure? ==>
            out.1 == objects && out.0.Next? && out.0.err.App? && out.0.err.err.statusCode == 400)
      && (out.0.Respond? ==>
            var f := file.value;
            var p := GetOptimizationProfile(profile);
            var key := GenerateS3Key(f.originalname, userId, clock(0));
            && out.0.code == 200 && out.0.body.status == "success"
            && out.0.body.data.key == key
            && out.0.body.data.url == PublicUrl(bucket, region, key)
            && ValidateKeyOwnership(Str(key), userId, at).None?
            && key in out.1
            && out.1[key].body == codec(f.buffer, p).value
            && out.1[key].contentType == "image/" + FormatName(p.format))
  {
    var out := SingleUploadOutcome(bucket, region, objects, file, profile, userId, codec, clock, faults, at, now);
    if out.0.Respond? {
      var f := file.value;
      var p := GetOptimizationProfile(profile);
      var batch := [ProcessedFile(f, codec(f.buffer, p).value, p)];
      UploadResultsMatchFiles(bucket, region, objects, batch, userId, clock, faults, at);
      PutPrefixStoresFile(objects, batch, userId, clock, faults, 1, 0);
      GeneratedKeysPassOwnership(f.originalname, userId, clock(0), at);
    }
  }

  // ---- uploadMultipleImages: processing and partition ----

  /** A processed file: the original, the file handed to the gateway and the profile used. */
  datatype Processed = Processed(original: UploadFile, output: UploadFile, profile: Profile)

  /** One entry of `processingResults`: processed, or failed with the error's message. */
  datatype ProcessingResult = Done(done: Processed) | Failed(file: UploadFile, message: string)

  /** The processing of one file, its failure caught. */
  function ProcessOne(file: UploadFile, profile: Profile, codec: Codec, at: Moment): (r: ProcessingResult)
    ensures r.Done? <==> codec(file.buffer, profile).Success?
    ensures r.Failed? ==> r.file == file && r.message == "Image processing failed: " + codec(file.buffer, profile).error
  {
    match ProcessImage(file.buffer, profile, codec, at)
    case Success(out) => Done(Processed(file, ProcessedFile(file, out, profile), profile))
    case Failure(e) => Failed(file, e.Message())
  }

  /** `processingResults`: one result per file, in input order. */
  function ProcessAll(files: seq<UploadFile>, profile: Profile, codec: Codec, at: Moment): (rs: seq<ProcessingResult>)
    ensures |rs| == |files|
    ensures forall i :: 0 <= i < |files| ==> rs[i] == ProcessOne(files[i], profile, codec, at)
  {
    seq(|files|, i requires 0 <= i < |files| => ProcessOne(files[i], profile, codec, at))
  }

  /** `processingResults.filter((r) => !r.error)`. */
  function Successes(rs: seq<ProcessingResult>): seq<Processed> {
    if rs == [] then []
    else (if rs[0].Done? then [rs[0].done] else []) + Successes(rs[1..])
  }

  /** `processingResults.filter((r) => r.error)`. */
  function Failures(rs: seq<ProcessingResult>): seq<ProcessingResult> {
    if rs == [] then []
    else (if rs[0].Failed? then [rs[0]] else []) + Failures(rs[1..])
  }

  /**
   * The two filters split the results: every result lands in exactly one
   * list (successes are the `Done` ones, failures the `Failed` ones) and the
   * lengths add up.
   */
  lemma {:induction false} PartitionSplits(rs: seq<ProcessingResult>)
    ensures |Successes(rs)| + |Failures(rs)| == |rs|
    ensures forall p :: p in Successes(rs) <==> Done(p) in rs
    ensures forall r :: r in Failures(rs) <==> r in rs && r.Failed?
  {
    if rs != [] {
      PartitionSplits(rs[1..]);
      assert rs == [rs[0]] + rs[1..];
    }
  }

  /** Both filters keep input order: filtering a concatenation concatenates the filtered parts. */
  lemma PartitionKeepsOrder(a: seq<ProcessingResult>, b: seq<ProcessingResult>)
    ensures Successes(a + b) == Successes(a) + Successes(b)
    ensures Failures(a + b) == Failures(a) + Failures(b)
  {
    SuccessesAppend(a, b);
    FailuresAppend(a, b);
  }

  lemma {:induction false} SuccessesAppend(a: seq<ProcessingResult>, b: seq<ProcessingResult>)
    ensures Successes(a + b) == Successes(a) + Successes(b)
  {
    if a == [] {
      assert a + b == b;
    } else {
      assert (a + b)[0] == a[0];
      assert (a + b)[1..] == a[1..] + b;
      SuccessesAppend(a[1..], b);
      var head := if a[0].Done? then [a[0].done] else [];
      assert Successes(a + b) == head + Successes(a[1..] + b);
      assert Successes(a) == head + Successes(a[1..]);
    }
  }

  lemma {:induction false} FailuresAppend(a: seq<ProcessingResult>, b: seq<ProcessingResult>)
    ensures Failures(a + b) == Failures(a) + Failures(b)
  {
    if a == [] {
      assert a + b == b;
    } else {
      assert (a + b)[0] == a[0];
      assert (a + b)[1..] == a[1..] + b;
      FailuresAppend(a[1..], b);
      var head := if a[0].Failed? then [a[0]] else [];
      assert Failures(a + b) == head + Failures(a[1..] + b);
      assert Failures(a) == head + Failures(a[1..]);
    }
  }

  /** With no result processed there is no success. */
  lemma {:induction false} NoneDoneNoSuccess(rs: seq<ProcessingResult>)
    requires forall i :: 0 <= i < |rs| ==> !rs[i].Done?
    ensures Successes(rs) == []
  {
    if rs != [] {
      NoneDoneNoSuccess(rs[1..]);
    }
  }

  /** Every file processed exactly when there is no failure. */
  lemma AllProcessedIffNoFailure(rs: seq<ProcessingResult>)
    ensures |Successes(rs)| == |rs| <==> Failures(rs) == []
    ensures Failures(rs) == [] <==> forall i :: 0 <= i < |rs| ==> rs[i].Done?
  {
    PartitionSplits(rs);
    if exists i :: 0 <= i < |rs| && !rs[i].Done? {
      var i :| 0 <= i < |rs| && !rs[i].Done?;
      assert rs[i] in Failures(rs);
    }
  }

  /** The files handed to the gateway, in order. */
  function OutputsOf(ok: seq<Processed>): (fs: seq<UploadFile>)
    ensures |fs| == |ok| && forall i :: 0 <= i < |ok| ==> fs[i] == ok[i].output
  {
    seq(|ok|, i requires 0 <= i < |ok| => ok[i].output)
  }

  /** `failed`: the original name and message of every failure, in order. */
  function FailedFiles(failures: seq<ProcessingResult>): (ff: seq<FailedFile>)
    requires forall i :: 0 <= i < |failures| ==> failures[i].Failed?
    ensures |ff| == |failures|
    ensures forall i :: 0 <= i < |failures| ==> ff[i] == FailedFile(failures[i].file.originalname, failures[i].message)
  {
    seq(|failures|, i requires 0 <= i < |failures| && failures[i].Failed? =>
      FailedFile(failures[i].file.originalname, failures[i].message))
  }

  /** `successful`: the i-th processed file paired with the i-th upload record. */
  function SuccessfulFiles(ok: seq<Processed>, results: seq<UploadResult>, now: string): (ms: seq<FileMeta>)
    requires |results| == |ok|
    ensures |ms| == |ok|
    ensures forall i :: 0 <= i < |ok| ==>
      ms[i] == GenerateFileMetadata(ok[i].original, ok[i].output.buffer, ok[i].profile, results[i], now)
  {
    seq(|results|, i requires 0 <= i < |results| && i < |ok| =>
      GenerateFileMetadata(ok[i].original, ok[i].output.buffer, ok[i].profile, results[i], now))
  }

  /** Every failure returned by `Failures` is a failed result. */
  lemma FailuresAreFailed(rs: seq<ProcessingResult>)
    ensures forall i :: 0 <= i < |Failures(rs)| ==> Failures(rs)[i].Failed?
  {
    PartitionSplits(rs);
    forall i | 0 <= i < |Failures(rs)| ensures Failures(rs)[i].Failed? {
      assert Failures(rs)[i] in Failures(rs);
    }
  }

  /** The reply to a batch whose survivors `ok` were stored as `results`; `total` files came in. */
  function BatchReply(ok: seq<Processed>, bad: seq<ProcessingResult>, results: seq<UploadResult>, total: nat,
                      now: string): Reply
    requires |results| == |ok|
    requires forall i :: 0 <= i < |bad| ==> bad[i].Failed?
  {
    var all := |ok| == total;
    Respond(if all then 200 else 207,
            ManyUploaded(if all then "success" else "partial", SuccessfulFiles(ok, results, now), FailedFiles(bad)))
  }

  /**
   * `uploadMultipleImages`: the reply and the bucket afterwards. Every file
   * is processed; when none survives the gateway is not called; otherwise the
   * survivors are uploaded as one batch and the reply is 200 when all
   * survived, 207 otherwise.
   */
  function MultiUploadOutcome(bucket: string, region: string, objects: Objects, files: Option<seq<UploadFile>>,
                              profile: Option<string>, userId: string, codec: Codec, clock: nat -> nat,
                              faults: nat -> Option<Fault>, at: Moment, now: string): (Reply, Objects)
  {
    if files.None? || files.value == [] then (Next(Raise(NoFilesMessage, 400, at)), objects)
    else
      var fs := files.value;
      var rs := ProcessAll(fs, GetOptimizationProfile(profile), codec, at);
      var ok := Successes(rs);
      var bad := Failures(rs);
      if |bad| > 0 && |ok| == 0 then (Next(Raise("All files failed processing", 400, at)), objects)
      else
        var stored := UploadOutcome(bucket, region, objects, Some(OutputsOf(ok)), userId, clock, faults, at);
        match stored.0
        case Failure(e) => (Next(e), stored.1)
        case Success(results) =>
          UploadResultsMatchFiles(bucket, region, objects, OutputsOf(ok), userId, clock, faults, at);
          FailuresAreFailed(rs);
          (BatchReply(ok, bad, results, |fs|, now), stored.1)
  }

  /**
   * No files is a 400; every file failing processing is a 400 "All files
   * failed processing" with the bucket untouched: the gateway is not called.
   */
  lemma MultiUploadRejections(bucket: string, region: string, objects: Objects, files: Option<seq<UploadFile>>,
                              profile: Option<string>, userId: string, codec: Codec, clock: nat -> nat,
                              faults: nat -> Option<Fault>, at: Moment, now: string)
    ensures var out := MultiUploadOutcome(bucket, region, objects, files, profile, userId, codec, clock, faults, at, now);
      && ((files.None? || files == Some([])) ==> out == (Next(Raise(NoFilesMessage, 400, at)), objects))
      && ((files.Some? && files.value != []
           && forall i :: 0 <= i < |files.value| ==> codec(files.value[i].buffer, GetOptimizationProfile(profile)).Failure?)
          ==> out == (Next(Raise("All files failed processing", 400, at)), objects))
  {
    if files.Some? && files.value != [] {
      var fs := files.value;
      var p := GetOptimizationProfile(profile);
      var rs := ProcessAll(fs, p, codec, at);
      if forall i :: 0 <= i < |fs| ==> codec(fs[i].buffer, p).Failure? {
        assert forall i :: 0 <= i < |rs| ==> !rs[i].Done?;
        NoneDoneNoSuccess(rs);
        PartitionSplits(rs);
      }
    }
  }

  /** A batch reply is 200 "success" exactly when every file processed, and 207 "partial" otherwise. */
  lemma MultiUploadStatus(bucket: string, region: string, objects: Objects, files: Option<seq<UploadFile>>,
                          profile: Option<string>, userId: string, codec: Codec, clock: nat -> nat,
                          faults: nat -> Option<Fault>, at: Moment, now: string)
    ensures var out := MultiUploadOutcome(bucket, region, objects, files, profile, userId, codec, clock, faults, at, now);
      out.0.Respond? ==>
        && out.0.body.ManyUploaded?
        && (out.0.code == 200 || out.0.code == 207)
        && (out.0.code == 200 <==> forall i :: 0 <= i < |files.value| ==>
                                     codec(files.value[i].buffer, GetOptimizationProfile(profile)).Success?)
        && (out.0.body.status == (if out.0.code == 200 then "success" else "partial"))
        && |out.0.body.successful| + |out.0.body.failed| == |files.value|
  {
    var out := MultiUploadOutcome(bucket, region, objects, files, profile, userId, codec, clock, faults, at, now);
    if out.0.Respond? {
      var rs := ProcessAll(files.value, GetOptimizationProfile(profile), codec, at);
      PartitionSplits(rs);
      AllProcessedIffNoFailure(rs);
    }
  }

  /** A batch reply is `BatchReply` over the gateway's records, one per processed file, keyed in order. */
  lemma MultiUploadReplyForm(bucket: string, region: string, objects: Objects, fs: seq<UploadFile>,
                             profile: Option<string>, userId: string, codec: Codec, clock: nat -> nat,
                             faults: nat -> Option<Fault>, at: Moment, now: string)
    returns (results: seq<UploadResult>)
    ensures var out := MultiUploadOutcome(bucket, region, objects, Some(fs), profile, userId, codec, clock, faults, at, now);
      var rs := ProcessAll(fs, GetOptimizationProfile(profile), codec, at);
      var ok := Successes(rs);
      out.0.Respond? ==>
        && |results| == |ok|
        && (forall i :: 0 <= i < |Failures(rs)| ==> Failures(rs)[i].Failed?)
        && (forall i :: 0 <= i < |ok| ==> results[i].key == BatchKey(OutputsOf(ok), userId, clock, i))
        && out.0 == BatchReply(ok, Failures(rs), results, |fs|, now)
  {
    var out := MultiUploadOutcome(bucket, region, objects, Some(fs), profile, userId, codec, clock, faults, at, now);
    var rs := ProcessAll(fs, GetOptimizationProfile(profile), codec, at);
    var ok := Successes(rs);
    results := [];
    if out.0.Respond? {
      FailuresAreFailed(rs);
      UploadResultsMatchFiles(bucket, region, objects, OutputsOf(ok), userId, clock, faults, at);
      results := UploadOutcome(bucket, region, objects, Some(OutputsOf(ok)), userId, clock, faults, at).0.value;
    }
  }

  /**
   * The i-th record of a batch reply names the i-th processed file's key as
   * the gateway derived it, and that file came with the request.
   */
  lemma MultiUploadRecords(bucket: string, region: string, objects: Objects, fs: seq<UploadFile>,
                           profile: Option<string>, userId: string, codec: Codec, clock: nat -> nat,
                           faults: nat -> Option<Fault>, at: Moment, now: string)
    ensures var out := MultiUploadOutcome(bucket, region, objects, Some(fs), profile, userId, codec, clock, faults, at, now);
      var ok := Successes(ProcessAll(fs, GetOptimizationProfile(profile), codec, at));
      out.0.Respond? ==>
        && |out.0.body.successful| == |ok|
        && forall i :: 0 <= i < |ok| ==>
             && out.0.body.successful[i].key == BatchKey(OutputsOf(ok), userId, clock, i)
             && ok[i].original in fs
  {
    var out := MultiUploadOutcome(bucket, region, objects, Some(fs), profile, userId, codec, clock, faults, at, now);
    var rs := ProcessAll(fs, GetOptimizationProfile(profile), codec, at);
    var ok := Successes(rs);
    var results := MultiUploadReplyForm(bucket, region, objects, fs, profile, userId, codec, clock, faults, at, now);
    if out.0.Respond? {
      PartitionSplits(rs);
      forall i | 0 <= i < |ok| ensures ok[i].original in fs {
        assert Done(ok[i]) in rs;
        var k :| 0 <= k < |rs| && rs[k] == Done(ok[i]);
        assert ok[i].original == fs[k];
      }
    }
  }

  /** Each failed entry of a batch reply names a request file whose processing failed. */
  lemma MultiUploadFailedEntries(bucket: string, region: string, objects: Objects, fs: seq<UploadFile>,
                                 profile: Option<string>, userId: string, codec: Codec, clock: nat -> nat,
                                 faults: nat -> Option<Fault>, at: Moment, now: string)
    ensures var out := MultiUploadOutcome(bucket, region, objects, Some(fs), profile, userId, codec, clock, faults, at, now);
      out.0.Respond? ==>
        forall j :: 0 <= j < |out.0.body.failed| ==>
          exists i :: 0 <= i < |fs| && out.0.body.failed[j].filename == fs[i].originalname
                   && codec(fs[i].buffer, GetOptimizationProfile(profile)).Failure?
  {
    var out := MultiUploadOutcome(bucket, region, objects, Some(fs), profile, userId, codec, clock, faults, at, now);
    var p := GetOptimizationProfile(profile);
    var rs := ProcessAll(fs, p, codec, at);
    var bad := Failures(rs);
    var results := MultiUploadReplyForm(bucket, region, objects, fs, profile, userId, codec, clock, faults, at, now);
    if out.0.Respond? {
      FailuresCameFromFiles(fs, p, codec, at);
      var ff := out.0.body.failed;
      assert ff == FailedFiles(bad);
      forall j | 0 <= j < |ff| ensures exists i :: 0 <= i < |fs| && ff[j].filename == fs[i].originalname
                                              && codec(fs[i].buffer, p).Failure? {
        assert ff[j].filename == bad[j].file.originalname;
        var i :| 0 <= i < |fs| && bad[j].file == fs[i] && codec(fs[i].buffer, p).Failure?;
      }
    }
  }

  /** Every failure kept by the filter is the result of some request file whose processing failed. */
  lemma FailuresCameFromFiles(fs: seq<UploadFile>, p: Profile, codec: Codec, at: Moment)
    ensures var bad := Failures(ProcessAll(fs, p, codec, at));
      forall j :: 0 <= j < |bad| ==>
        && bad[j].Failed?
        && exists i :: 0 <= i < |fs| && bad[j].file == fs[i] && codec(fs[i].buffer, p).Failure?
  {
    var rs := ProcessAll(fs, p, codec, at);
    var bad := Failures(rs);
    PartitionSplits(rs);
    forall j | 0 <= j < |bad| ensures bad[j].Failed? &&
      exists i :: 0 <= i < |fs| && bad[j].file == fs[i] && codec(fs[i].buffer, p).Failure? {
      assert bad[j] in bad;
      var k :| 0 <= k < |rs| && rs[k] == bad[j];
      assert rs[k] == ProcessOne(fs[k], p, codec, at);
    }
  }

  // ---- removal ----

  /**
   * The handlers' `catch`: an `AppError` is passed on unchanged, anything
   * else becomes a 500 naming its message.
   */
  function Wrap(e: Thrown, prefix: string, at: Moment): (w: Thrown)
    ensures w.App?
    ensures e.App? ==> w == e
    ensures !e.App? ==> w == Raise(prefix + e.Message(), 500, at)
  {
    if e.App? then e else Raise(prefix + e.Message(), 500, at)
  }

  /**
   * The reply to a missing key under the gateway's existence check as
   * written: `removeSingleImage` forwards a 500 "Failed to delete image:
   * AppError is not defined" and a batch lists "AppError is not defined".
   */
  lemma MissingKeyReplies(key: string, f: Fault, at: Moment)
    requires f.name == "NotFound"
    ensures Wrap(HeadErrorAsWritten(f).WithKey(key), "Failed to delete image: ", at)
         == Raise("Failed to delete image: " + "AppError is not defined", 500, at)
    ensures HeadErrorAsWritten(f).WithKey(key).Message() == "AppError is not defined"
  {
    var e := HeadErrorAsWritten(f).WithKey(key);
    assert e.Message() == "AppError is not defined" && !e.App?;
  }

  /** Under the corrected check the 404 "File not found" is forwarded unchanged, and listed by its message. */
  lemma MissingKeyRepliesCorrected(key: string, f: Fault, at: Moment)
    requires f.name == "NotFound"
    ensures Wrap(HeadError(f, at).WithKey(key), "Failed to delete image: ", at) == NotFoundError(at).WithKey(key)
    ensures HeadError(f, at).WithKey(key).Message() == "File not found"
  {
  }

  /**
   * `removeSingleImage`: the body's key must be present and owned by the
   * caller; then the gateway's check-then-delete.
   */
  function RemoveSingleOutcome(objects: Objects, body: Json, userId: string, headFault: Option<Fault>,
                               deleteFault: Option<Fault>, at: Moment, now: string): (Reply, Objects)
  {
    if !Truthy(body) || !Truthy(Prop(body, "key")) then
      (Next(Raise("Image key is required in request body", 400, at)), objects)
    else
      var key := Prop(body, "key");
      match ValidateKeyOwnership(key, userId, at)
      case Some(e) => (Next(Wrap(e, "Failed to delete image: ", at)), objects)
      case None =>
        var deleted := DeleteOutcome(objects, key.s, headFault, deleteFault, at);
        match deleted.0
        case Failure(e) => (Next(Wrap(e, "Failed to delete image: ", at)), deleted.1)
        case Success(_) => (Respond(200, OneDeleted("success", "Image successfully deleted", key.s, now)), deleted.1)
  }

  /**
   * A single removal deletes only a key the caller owns, and only that key;
   * it replies 200 exactly when the key was present and the service did not
   * fail, and every error it passes on is an `AppError`.
   */
  lemma RemoveSingleSemantics(objects: Objects, body: Json, userId: string, headFault: Option<Fault>,
                              deleteFault: Option<Fault>, at: Moment, now: string)
    ensures var out := RemoveSingleOutcome(objects, body, userId, headFault, deleteFault, at, now);
      var key := Prop(body, "key");
      && (out.0.Next? ==> out.0.err.App? && out.1 == objects)
      && (out.0.Respond? <==>
            && Truthy(body) && key.Str?
            && StartsWith(key.s, OwnerPrefix(userId))
            && key.s in objects && headFault.None? && deleteFault.None?)
      && (out.0.Respond? ==> out.0.code == 200 && out.1 == objects - {key.s} && out.0.body.key == key.s)
  {
  }

  /** The first key, in list order, that fails the ownership check: `keys.forEach(validateKeyOwnership)`. */
  function FirstOwnershipError(keys: seq<Json>, userId: string, at: Moment, from: nat): (r: Option<Thrown>)
    requires from <= |keys|
    decreases |keys| - from
  {
    if from == |keys| then None
    else
      match ValidateKeyOwnership(keys[from], userId, at)
      case Some(e) => Some(e)
      case None => FirstOwnershipError(keys, userId, at, from + 1)
  }

  /** The scan finds an error exactly when some remaining key fails the check. */
  lemma {:induction false} FirstOwnershipErrorFindsAny(keys: seq<Json>, userId: string, at: Moment, from: nat)
    requires from <= |keys|
    decreases |keys| - from
    ensures FirstOwnershipError(keys, userId, at, from).None? <==>
      forall i :: from <= i < |keys| ==> ValidateKeyOwnership(keys[i], userId, at).None?
  {
    if from < |keys| {
      FirstOwnershipErrorFindsAny(keys, userId, at, from + 1);
    }
  }

  /** The scan returns the error of the first key that fails the check, which is at or before any failing key. */
  lemma {:induction false} FirstOwnershipErrorIsFirst(keys: seq<Json>, userId: string, at: Moment, from: nat, i: nat)
    requires from <= i < |keys| && ValidateKeyOwnership(keys[i], userId, at).Some?
    decreases |keys| - from
    ensures exists j :: && from <= j <= i && ValidateKeyOwnership(keys[j], userId, at).Some?
                        && (forall k :: from <= k < j ==> ValidateKeyOwnership(keys[k], userId, at).None?)
                        && FirstOwnershipError(keys, userId, at, from) == ValidateKeyOwnership(keys[j], userId, at)
  {
    if ValidateKeyOwnership(keys[from], userId, at).None? {
      FirstOwnershipErrorIsFirst(keys, userId, at, from + 1, i);
      var j :| from + 1 <= j <= i && ValidateKeyOwnership(keys[j], userId, at).Some?
        && (forall k :: from + 1 <= k < j ==> ValidateKeyOwnership(keys[k], userId, at).None?)
        && FirstOwnershipError(keys, userId, at, from + 1) == ValidateKeyOwnership(keys[j], userId, at);
      assert forall k :: from <= k < j ==> ValidateKeyOwnership(keys[k], userId, at).None?;
    } else {
      assert FirstOwnershipError(keys, userId, at, from) == ValidateKeyOwnership(keys[from], userId, at);
    }
  }

  /** The error of one settled delete as listed in `failedDeletes`. */
  function FailedEntry(e: Thrown): FailedDelete {
    FailedDelete(if e.Key().Some? && e.Key().value != "" then e.Key().value else "unknown", e.Message())
  }

  /** The settled results and the bucket after deleting the first `n` keys, in list order. */
  function DeletePrefix(objects: Objects, keys: seq<string>, headFaults: nat -> Option<Fault>,
                        deleteFaults: nat -> Option<Fault>, at: Moment, n: nat): (out: (seq<Result<(), Thrown>>, Objects))
    requires n <= |keys|
    ensures |out.0| == n
  {
    if n == 0 then ([], objects)
    else
      var before := DeletePrefix(objects, keys, headFaults, deleteFaults, at, n - 1);
      var step := DeleteOutcome(before.1, keys[n - 1], headFaults(n - 1), deleteFaults(n - 1), at);
      (before.0 + [step.0], step.1)
  }

  /** Every failed delete carries the key it was issued for; the bucket loses only keys of the list. */
  lemma DeletePrefixFacts(objects: Objects, keys: seq<string>, headFaults: nat -> Option<Fault>,
                          deleteFaults: nat -> Option<Fault>, at: Moment, n: nat)
    requires n <= |keys|
    ensures var out := DeletePrefix(objects, keys, headFaults, deleteFaults, at, n);
      && (forall i :: 0 <= i < n && out.0[i].Failure? ==> out.0[i].error.Key() == Some(keys[i]))
      && out.1.Keys <= objects.Keys
      && (forall k :: k in objects && k !in keys[..n] ==> k in out.1 && out.1[k] == objects[k])
  {
    DeleteFailuresTagged(objects, keys, headFaults, deleteFaults, at, n);
    DeletePrefixShrinks(objects, keys, headFaults, deleteFaults, at, n);
    forall k | k in objects && k !in keys[..n] ensures
      var after := DeletePrefix(objects, keys, headFaults, deleteFaults, at, n).1;
      k in after && after[k] == objects[k]
    {
      DeletePrefixKeeps(objects, keys, headFaults, deleteFaults, at, n, k);
    }
  }

  lemma {:induction false} DeleteFailuresTagged(objects: Objects, keys: seq<string>, headFaults: nat -> Option<Fault>,
                                                deleteFaults: nat -> Option<Fault>, at: Moment, n: nat)
    requires n <= |keys|
    ensures var settled := DeletePrefix(objects, keys, headFaults, deleteFaults, at, n).0;
      forall i :: 0 <= i < n && settled[i].Failure? ==> settled[i].error.Key() == Some(keys[i])
  {
    if n > 0 {
      DeleteFailuresTagged(objects, keys, headFaults, deleteFaults, at, n - 1);
      var before := DeletePrefix(objects, keys, headFaults, deleteFaults, at, n - 1);
      var step := DeleteOutcome(before.1, keys[n - 1], headFaults(n - 1), deleteFaults(n - 1), at);
      var settled := DeletePrefix(objects, keys, headFaults, deleteFaults, at, n).0;
      assert settled == before.0 + [step.0];
      forall i | 0 <= i < n && settled[i].Failure? ensures settled[i].error.Key() == Some(keys[i]) {
        if i < n - 1 {
          assert settled[i] == before.0[i];
        }
      }
    }
  }

  lemma {:induction false} DeletePrefixShrinks(objects: Objects, keys: seq<string>, headFaults: nat -> Option<Fault>,
                                               deleteFaults: nat -> Option<Fault>, at: Moment, n: nat)
    requires n <= |keys|
    ensures DeletePrefix(objects, keys, headFaults, deleteFaults, at, n).1.Keys <= objects.Keys
  {
    if n > 0 {
      DeletePrefixShrinks(objects, keys, headFaults, deleteFaults, at, n - 1);
    }
  }

  lemma {:induction false} DeletePrefixKeeps(objects: Objects, keys: seq<string>, headFaults: nat -> Option<Fault>,
                                             deleteFaults: nat -> Option<Fault>, at: Moment, n: nat, k: string)
    requires n <= |keys|
    requires k in objects && k !in keys[..n]
    ensures var after := DeletePrefix(objects, keys, headFaults, deleteFaults, at, n).1;
      k in after && after[k] == objects[k]
  {
    if n > 0 {
      assert keys[..n] == keys[..n - 1] + [keys[n - 1]];
      DeletePrefixKeeps(objects, keys, headFaults, deleteFaults, at, n - 1, k);
      var before := DeletePrefix(objects, keys, headFaults, deleteFaults, at, n - 1);
      DeleteTouchesOnlyItsKey(before.1, keys[n - 1], headFaults(n - 1), deleteFaults(n - 1), at, k);
    }
  }

  /** Number of fulfilled deletes. */
  function DeletedCount(settled: seq<Result<(), Thrown>>): nat {
    if settled == [] then 0 else (if settled[0].Success? then 1 else 0) + DeletedCount(settled[1..])
  }

  /** `failedDeletes`: the rejected deletes, in order. */
  function FailedDeletes(settled: seq<Result<(), Thrown>>): seq<FailedDelete> {
    if settled == [] then []
    else (if settled[0].Failure? then [FailedEntry(settled[0].error)] else []) + FailedDeletes(settled[1..])
  }

  /**
   * Fulfilled and rejected deletes add up to all of them; when each rejection
   * carries the non-empty key it was issued for, every listed failure names a
   * key of the request (the "unknown" fallback never shows).
   */
  lemma {:induction false} SettledCounts(settled: seq<Result<(), Thrown>>, keys: seq<string>)
    requires |keys| == |settled|
    requires forall i :: 0 <= i < |settled| && settled[i].Failure? ==> settled[i].error.Key() == Some(keys[i])
    requires forall i :: 0 <= i < |keys| ==> keys[i] != ""
    ensures DeletedCount(settled) + |FailedDeletes(settled)| == |settled|
    ensures forall j :: 0 <= j < |FailedDeletes(settled)| ==> FailedDeletes(settled)[j].key in keys
  {
    if settled != [] {
      SettledCounts(settled[1..], keys[1..]);
      var rest := FailedDeletes(settled[1..]);
      forall j | 0 <= j < |rest| ensures rest[j].key in keys {
        assert rest[j].key in keys[1..];
      }
    }
  }

  /** The keys of the request, once every one has passed the ownership check. */
  function KeyStrings(items: seq<Json>): (keys: seq<string>)
    requires forall i :: 0 <= i < |items| ==> items[i].Str?
    ensures |keys| == |items| && forall i :: 0 <= i < |items| ==> keys[i] == items[i].s
  {
    seq(|items|, i requires 0 <= i < |items| && items[i].Str? => items[i].s)
  }

  /** The reply for the settled deletes: 200 when none failed, 207 when some did, a 500 when all did. */
  function ClassifyDeletes(settled: seq<Result<(), Thrown>>, at: Moment, now: string): Reply {
    var failed := FailedDeletes(settled);
    var count := DeletedCount(settled);
    if |failed| == 0 then Respond(200, AllDeleted("success", "All images were successfully deleted", count, now))
    else if count > 0 then
      Respond(207, SomeDeleted("partial", "Some images were deleted successfully", count, |failed|, failed, now))
    else Next(Raise("Failed to delete all images", 500, at))
  }

  /**
   * `removeMultipleImages`: the body's `keys` must be a non-empty array;
   * every key is checked before any delete is issued; then one
   * check-then-delete per key, every outcome collected and classified.
   */
  function RemoveManyOutcome(objects: Objects, body: Json, userId: string, headFaults: nat -> Option<Fault>,
                             deleteFaults: nat -> Option<Fault>, at: Moment, now: string): (Reply, Objects)
  {
    if !Truthy(body) || !Truthy(Prop(body, "keys")) then
      (Next(Raise("Image keys array is required in request body", 400, at)), objects)
    else
      var keys := Prop(body, "keys");
      if !keys.Arr? then (Next(Raise("Keys must be provided as an array", 400, at)), objects)
      else if keys.items == [] then (Next(Raise("At least one image key is required", 400, at)), objects)
      else RemoveCheckedKeys(objects, keys.items, userId, headFaults, deleteFaults, at, now)
  }

  /** The ownership pass over every key, then the deletes and their classification. */
  function RemoveCheckedKeys(objects: Objects, items: seq<Json>, userId: string, headFaults: nat -> Option<Fault>,
                             deleteFaults: nat -> Option<Fault>, at: Moment, now: string): (Reply, Objects)
  {
    match FirstOwnershipError(items, userId, at, 0)
    case Some(e) => (Next(Wrap(e, "Failed to delete images: ", at)), objects)
    case None =>
      FirstOwnershipErrorFindsAny(items, userId, at, 0);
      var settled := DeletePrefix(objects, KeyStrings(items), headFaults, deleteFaults, at, |items|);
      (ClassifyDeletes(settled.0, at, now), settled.1)
  }

  /**
   * One key the caller may not touch means no delete at all: the reply
   * passes on the error of the first key that fails the check, wrapped as
   * "Failed to delete images: ..." when it is not already an application error.
   */
  lemma RemoveManyChecksFirst(objects: Objects, body: Json, userId: string, headFaults: nat -> Option<Fault>,
                              deleteFaults: nat -> Option<Fault>, at: Moment, now: string, i: nat)
    requires body.Obj? && "keys" in body.fields && body.fields["keys"].Arr?
    requires i < |body.fields["keys"].items|
    requires ValidateKeyOwnership(body.fields["keys"].items[i], userId, at).Some?
    ensures var out := RemoveManyOutcome(objects, body, userId, headFaults, deleteFaults, at, now);
      var items := body.fields["keys"].items;
      && out.1 == objects && out.0.Next? && out.0.err.App?
      && exists j :: && 0 <= j <= i && ValidateKeyOwnership(items[j], userId, at).Some?
                     && (forall k :: 0 <= k < j ==> ValidateKeyOwnership(items[k], userId, at).None?)
                     && out.0.err == Wrap(ValidateKeyOwnership(items[j], userId, at).value, "Failed to delete images: ", at)
  {
    var items := body.fields["keys"].items;
    assert Prop(body, "keys") == Arr(items);
    FirstOwnershipErrorFindsAny(items, userId, at, 0);
    FirstOwnershipErrorIsFirst(items, userId, at, 0, i);
    assert RemoveManyOutcome(objects, body, userId, headFaults, deleteFaults, at, now)
        == RemoveCheckedKeys(objects, items, userId, headFaults, deleteFaults, at, now);
  }

  /** The body checks answer 400 in order: no keys, not an array, an empty array. */
  lemma RemoveManyBodyChecks(objects: Objects, body: Json, userId: string, headFaults: nat -> Option<Fault>,
                             deleteFaults: nat -> Option<Fault>, at: Moment, now: string)
    ensures var out := RemoveManyOutcome(objects, body, userId, headFaults, deleteFaults, at, now);
      && (!Truthy(body) || !Truthy(Prop(body, "keys")) ==>
            out == (Next(Raise("Image keys array is required in request body", 400, at)), objects))
      && (Truthy(body) && Truthy(Prop(body, "keys")) && !Prop(body, "keys").Arr? ==>
            out == (Next(Raise("Keys must be provided as an array", 400, at)), objects))
      && (Prop(body, "keys") == Arr([]) ==> out == (Next(Raise("At least one image key is required", 400, at)), objects))
      && (out.0.Next? ==> out.0.err.App?)
  {
  }

  /**
   * Once every key has passed the check, the outcome is the classification
   * of one check-then-delete per key, each (non-empty) key the string of the
   * request's entry.
   */
  lemma RemoveManyReplyForm(objects: Objects, items: seq<Json>, userId: string, headFaults: nat -> Option<Fault>,
                            deleteFaults: nat -> Option<Fault>, at: Moment, now: string)
    returns (ks: seq<string>)
    requires items != []
    requires FirstOwnershipError(items, userId, at, 0).None?
    ensures |ks| == |items|
    ensures forall i :: 0 <= i < |items| ==> items[i] == Str(ks[i]) && ks[i] != ""
    ensures var settled := DeletePrefix(objects, ks, headFaults, deleteFaults, at, |ks|);
      RemoveManyOutcome(objects, Obj(map["keys" := Arr(items)]), userId, headFaults, deleteFaults, at, now)
        == (ClassifyDeletes(settled.0, at, now), settled.1)
  {
    var body := Obj(map["keys" := Arr(items)]);
    assert Prop(body, "keys") == Arr(items);
    assert RemoveManyOutcome(objects, body, userId, headFaults, deleteFaults, at, now)
        == RemoveCheckedKeys(objects, items, userId, headFaults, deleteFaults, at, now);
    FirstOwnershipErrorFindsAny(items, userId, at, 0);
    ks := KeyStrings(items);
    forall i | 0 <= i < |items| ensures items[i] == Str(ks[i]) && ks[i] != "" {
      assert ValidateKeyOwnership(items[i], userId, at).None?;
    }
  }

  /**
   * The classification of a batch removal whose keys all passed the check:
   * 200 counts every key as deleted; 207 has fulfilled and failed counts,
   * both positive, adding up to the number of keys, and each failure names
   * one of the request's keys; otherwise nothing was deleted and the reply
   * is the 500 "Failed to delete all images".
   */
  lemma RemoveManyClassification(objects: Objects, items: seq<Json>, userId: string, headFaults: nat -> Option<Fault>,
                                 deleteFaults: nat -> Option<Fault>, at: Moment, now: string)
    requires items != []
    requires forall i :: 0 <= i < |items| ==> ValidateKeyOwnership(items[i], userId, at).None?
    ensures var out := RemoveManyOutcome(objects, Obj(map["keys" := Arr(items)]), userId, headFaults, deleteFaults, at, now);
      && (out.0.Respond? ==> out.0.code == 200 || out.0.code == 207)
      && (out.0.Respond? && out.0.code == 200 ==> out.0.body.AllDeleted? && out.0.body.deletedCount == |items|)
      && (out.0.Respond? && out.0.code == 207 ==>
            && out.0.body.SomeDeleted? && 0 < out.0.body.deletedCount && 0 < out.0.body.failedCount
            && out.0.body.deletedCount + out.0.body.failedCount == |items|
            && forall j :: 0 <= j < |out.0.body.failedDeletes| ==> Str(out.0.body.failedDeletes[j].key) in items)
      && (out.0.Next? ==> out.0.err == Raise("Failed to delete all images", 500, at))
  {
    FirstOwnershipErrorFindsAny(items, userId, at, 0);
    var ks := RemoveManyReplyForm(objects, items, userId, headFaults, deleteFaults, at, now);
    var settled := DeletePrefix(objects, ks, headFaults, deleteFaults, at, |ks|).0;
    DeletePrefixFacts(objects, ks, headFaults, deleteFaults, at, |ks|);
    SettledCounts(settled, ks);
    var failed := FailedDeletes(settled);
    forall j | 0 <= j < |failed| ensures Str(failed[j].key) in items {
      var k :| 0 <= k < |ks| && ks[k] == failed[j].key;
      assert items[k] == Str(ks[k]);
    }
  }

  /**
   * A batch removal never adds a key, and a key not named in the request
   * keeps its object, whatever the outcome.
   */
  lemma RemoveManyKeepsOthers(objects: Objects, body: Json, userId: string, headFaults: nat -> Option<Fault>,
                              deleteFaults: nat -> Option<Fault>, at: Moment, now: string, k: string)
    requires k in objects
    requires !(Prop(body, "keys").Arr? && Str(k) in Prop(body, "keys").items)
    ensures var out := RemoveManyOutcome(objects, body, userId, headFaults, deleteFaults, at, now);
      out.1.Keys <= objects.Keys && k in out.1 && out.1[k] == objects[k]
  {
    var keys := Prop(body, "keys");
    if Truthy(body) && Truthy(keys) && keys.Arr? && keys.items != [] && FirstOwnershipError(keys.items, userId, at, 0).None? {
      FirstOwnershipErrorFindsAny(keys.items, userId, at, 0);
      var ks := KeyStrings(keys.items);
      DeletePrefixFacts(objects, ks, headFaults, deleteFaults, at, |ks|);
      assert ks[..|ks|] == ks;
    }
  }

  // ---- the handlers ----

  /** `uploadSingleImage` against the bucket. */
  method UploadSingleImage(bucket: Bucket, file: Option<UploadFile>, profile: Option<string>, userId: string,
                           codec: Codec, clock: nat -> nat, faults: nat -> Option<Fault>, at: Moment, now: string)
    returns (reply: Reply)
    modifies bucket
    ensures (reply, bucket.objects)
         == SingleUploadOutcome(bucket.name, bucket.region, old(bucket.objects), file, profile, userId, codec, clock, faults, at, now)
  {
    if file.None? {
      return Next(Raise(NoFileMessage, 400, at));
    }
    var f := file.value;
    var optimization := GetOptimizationProfile(profile);
    var processed := ProcessImage(f.buffer, optimization, codec, at);
    if processed.Failure? {
      return Next(processed.error);
    }
    var batch := [ProcessedFile(f, processed.value, optimization)];
    ghost var before := bucket.objects;
    var stored := bucket.UploadToS3(Some(batch), userId, clock, faults, at);
    if stored.Failure? {
      return Next(stored.error);
    }
    UploadResultsMatchFiles(bucket.name, bucket.region, before, batch, userId, clock, faults, at);
    reply := Respond(200, OneUploaded("success", GenerateFileMetadata(f, processed.value, optimization, stored.value[0], now)));
  }

  /** `uploadMultipleImages` against the bucket. */
  method UploadMultipleImages(bucket: Bucket, files: Option<seq<UploadFile>>, profile: Option<string>, userId: string,
                              codec: Codec, clock: nat -> nat, faults: nat -> Option<Fault>, at: Moment, now: string)
    returns (reply: Reply)
    modifies bucket
    ensures (reply, bucket.objects)
         == MultiUploadOutcome(bucket.name, bucket.region, old(bucket.objects), files, profile, userId, codec, clock, faults, at, now)
  {
    if files.None? || files.value == [] {
      return Next(Raise(NoFilesMessage, 400, at));
    }
    var fs := files.value;
    var optimization := GetOptimizationProfile(profile);
    var results := ProcessAll(fs, optimization, codec, at);
    var successful := Successes(results);
    var failed := Failures(results);
    if |failed| > 0 && |successful| == 0 {
      return Next(Raise("All files failed processing", 400, at));
    }
    ghost var before := bucket.objects;
    var stored := bucket.UploadToS3(Some(OutputsOf(successful)), userId, clock, faults, at);
    if stored.Failure? {
      return Next(stored.error);
    }
    UploadResultsMatchFiles(bucket.name, bucket.region, before, OutputsOf(successful), userId, clock, faults, at);
    FailuresAreFailed(results);
    reply := BatchReply(successful, failed, stored.value, |fs|, now);
  }

  /** `removeSingleImage` against the bucket. */
  method RemoveSingleImage(bucket: Bucket, body: Json, userId: string, headFault: Option<Fault>,
                           deleteFault: Option<Fault>, at: Moment, now: string)
    returns (reply: Reply)
    modifies bucket
    ensures (reply, bucket.objects) == RemoveSingleOutcome(old(bucket.objects), body, userId, headFault, deleteFault, at, now)
  {
    if !Truthy(body) || !Truthy(Prop(body, "key")) {
      return Next(Raise("Image key is required in request body", 400, at));
    }
    var key := Prop(body, "key");
    var invalid := ValidateKeyOwnership(key, userId, at);
    if invalid.Some? {
      return Next(Wrap(invalid.value, "Failed to delete image: ", at));
    }
    var deleted := bucket.DeleteFromS3(key.s, headFault, deleteFault, at);
    if deleted.Failure? {
      return Next(Wrap(deleted.error, "Failed to delete image: ", at));
    }
    reply := Respond(200, OneDeleted("success", "Image successfully deleted", key.s, now));
  }

  /** `removeMultipleImages` against the bucket: validate every key, then delete each in turn. */
  method RemoveMultipleImages(bucket: Bucket, body: Json, userId: string, headFaults: nat -> Option<Fault>,
                              deleteFaults: nat -> Option<Fault>, at: Moment, now: string)
    returns (reply: Reply)
    modifies bucket
    ensures (reply, bucket.objects) == RemoveManyOutcome(old(bucket.objects), body, userId, headFaults, deleteFaults, at, now)
  {
    if !Truthy(body) || !Truthy(Prop(body, "keys")) {
      return Next(Raise("Image keys array is required in request body", 400, at));
    }
    var keys := Prop(body, "keys");
    if !keys.Arr? {
      return Next(Raise("Keys must be provided as an array", 400, at));
    }
    var items := keys.items;
    if items == [] {
      return Next(Raise("At least one image key is required", 400, at));
    }
    var i := 0;
    while i < |items|
      invariant 0 <= i <= |items|
      invariant FirstOwnershipError(items, userId, at, i) == FirstOwnershipError(items, userId, at, 0)
      invariant forall j :: 0 <= j < i ==> ValidateKeyOwnership(items[j], userId, at).None?
    {
      var invalid := ValidateKeyOwnership(items[i], userId, at);
      if invalid.Some? {
        return Next(Wrap(invalid.value, "Failed to delete images: ", at));
      }
      i := i + 1;
    }
    FirstOwnershipErrorFindsAny(items, userId, at, 0);
    var settled := DeleteEach(bucket, KeyStrings(items), headFaults, deleteFaults, at);
    reply := ClassifyDeletes(settled, at, now);
  }

  /** Issues the deletes of `removeMultipleImages` in key order, settling each one. */
  method DeleteEach(bucket: Bucket, ks: seq<string>, headFaults: nat -> Option<Fault>,
                    deleteFaults: nat -> Option<Fault>, at: Moment)
    returns (settled: seq<Result<(), Thrown>>)
    modifies bucket
    ensures (settled, bucket.objects) == DeletePrefix(old(bucket.objects), ks, headFaults, deleteFaults, at, |ks|)
  {
    ghost var before := bucket.objects;
    settled := [];
    var i := 0;
    while i < |ks|
      invariant 0 <= i <= |ks|
      invariant (settled, bucket.objects) == DeletePrefix(before, ks, headFaults, deleteFaults, at, i)
    {
      var r := bucket.DeleteFromS3(ks[i], headFaults(i), deleteFaults(i), at);
      settled := settled + [r];
      i := i + 1;
    }
  }
}
