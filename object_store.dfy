/**
 * The storage gateway: a bucket modelled as a map from key to stored object,
 * with the batch put (`uploadToS3`) and the check-then-delete
 * (`deleteFromS3`). Clock readings and transport failures of the storage
 * service come in as parameters.
 */
module ObjectStore {
  import opened Wrappers
  import opened JsValues
  import opened AppErrors
  import opened S3Keys

  type Buffer = seq<bv8>

  /** A file as the upload middleware hands it over (memory storage). */
  datatype UploadFile = UploadFile(fieldname: string, originalname: string, mimetype: string, size: nat, buffer: Buffer)

  /** The object metadata written with every put. */
  datatype Metadata = Metadata(originalName: string, uploadedBy: string, processed: string)

  datatype StoredObject = StoredObject(body: Buffer, contentType: string, metadata: Metadata)

  /** `{ Location, Key }`, one per uploaded file. */
  datatype UploadResult = UploadResult(location: string, key: string)

  /** A failure reported by the storage service: the SDK error's `name` and `message`. */
  datatype Fault = Fault(name: string, message: string)

  type Objects = map<string, StoredObject>

  /** The put of one file: its buffer under its content type, with the uploader and the processed marker. */
  function ObjectOf(file: UploadFile, userId: string): StoredObject {
    StoredObject(file.buffer, file.mimetype, Metadata(EncodeUriComponent(file.originalname), userId, "true"))
  }

  /** The key of the i-th file of a batch; `clock(i)` is the `Date.now()` reading taken for it. */
  function BatchKey(files: seq<UploadFile>, userId: string, clock: nat -> nat, i: nat): string
    requires i < |files|
  {
    GenerateS3Key(files[i].originalname, userId, clock(i))
  }

  /** `throw new Error("Files array is required")`. */
  const FilesRequired: Thrown := Native("Error", "Files array is required", None)

  /** The error a failed batch put is reported with (corrected: an `AppError` 500 naming the cause). */
  function StoreFailure(cause: string, at: Moment): (t: Thrown)
    ensures t.App? && t.err.statusCode == 500 && t.err.status == "error"
    ensures t.Message() == "Failed to upload to S3: " + cause
  {
    App(Make("Failed to upload to S3: " + cause, 500, at))
  }

  /**
   * The same error as written: `AppError` is not imported by the gateway, so
   * evaluating `new AppError(..)` throws a `ReferenceError` instead.
   */
  function StoreFailureAsWritten(cause: string): Thrown {
    Native("ReferenceError", "AppError is not defined", None)
  }

  /** As written, the reported error is no `AppError` and has lost the cause of the failure. */
  lemma StoreFailureAsWrittenLosesCause(cause1: string, cause2: string, at: Moment)
    ensures !StoreFailureAsWritten(cause1).App?
    ensures StoreFailureAsWritten(cause1) == StoreFailureAsWritten(cause2)
    ensures cause1 != cause2 ==> StoreFailure(cause1, at).Message() != StoreFailure(cause2, at).Message()
  {
    if cause1 != cause2 {
      var p := "Failed to upload to S3: ";
      assert StoreFailure(cause1, at).Message()[|p|..] == cause1;
      assert StoreFailure(cause2, at).Message()[|p|..] == cause2;
    }
  }

  /** One put of a batch: the key and the object sent under it. */
  datatype Put = Put(key: string, stored: StoredObject)

  /** The puts `files.map(...)` issues, one per file in input order. */
  function Puts(files: seq<UploadFile>, userId: string, clock: nat -> nat): (ps: seq<Put>)
    ensures |ps| == |files|
    ensures forall i :: 0 <= i < |files| ==> ps[i] == Put(BatchKey(files, userId, clock, i), ObjectOf(files[i], userId))
  {
    seq(|files|, i requires 0 <= i < |files| => Put(BatchKey(files, userId, clock, i), ObjectOf(files[i], userId)))
  }

  /** The bucket after the first `n` puts, each in turn, skipping those that failed. */
  function PutPrefix(objects: Objects, puts: seq<Put>, faults: nat -> Option<Fault>, n: nat): Objects
    requires n <= |puts|
  {
    if n == 0 then objects
    else
      var before := PutPrefix(objects, puts, faults, n - 1);
      if faults(n - 1).None? then before[puts[n - 1].key := puts[n - 1].stored] else before
  }

  /** The lowest position below `n` whose put fails. */
  function FirstFault(faults: nat -> Option<Fault>, n: nat): (r: Option<nat>)
    ensures r.Some? ==> r.value < n && faults(r.value).Some?
  {
    if n == 0 then None
    else
      var earlier := FirstFault(faults, n - 1);
      if earlier.Some? then earlier
      else if faults(n - 1).Some? then Some(n - 1)
      else None
  }

  /** The `{ Location, Key }` records of the first `n` puts, in input order. */
  function ResultsPrefix(bucket: string, region: string, puts: seq<Put>, n: nat): (rs: seq<UploadResult>)
    requires n <= |puts|
    ensures |rs| == n
  {
    if n == 0 then []
    else
      var key := puts[n - 1].key;
      ResultsPrefix(bucket, region, puts, n - 1) + [UploadResult(PublicUrl(bucket, region, key), key)]
  }

  /**
   * `uploadToS3(files, userId)`: the reply and the bucket afterwards. Every put
   * is issued; the batch fails as a whole if any put fails (reported with the
   * first failure in input order), and the puts that did succeed stay.
   */
  function UploadOutcome(bucket: string, region: string, objects: Objects, files: Option<seq<UploadFile>>,
                         userId: string, clock: nat -> nat, faults: nat -> Option<Fault>, at: Moment)
    : (Result<seq<UploadResult>, Thrown>, Objects)
  {
    match files
    case None => (Failure(FilesRequired), objects)
    case Some(fs) =>
      var ps := Puts(fs, userId, clock);
      var after := PutPrefix(objects, ps, faults, |ps|);
      match FirstFault(faults, |ps|)
      case Some(i) => (Failure(StoreFailure(faults(i).value.message, at)), after)
      case None => (Success(ResultsPrefix(bucket, region, ps, |ps|)), after)
  }

  /** A failure exists below `n` exactly when `FirstFault` finds one. */
  lemma {:induction false} FirstFaultFindsAny(faults: nat -> Option<Fault>, n: nat)
    ensures FirstFault(faults, n).None? <==> forall i :: 0 <= i < n ==> faults(i).None?
  {
    if n > 0 {
      FirstFaultFindsAny(faults, n - 1);
    }
  }

  /** The i-th record names the i-th put's key and that key's public URL. */
  lemma {:induction false} ResultsPrefixAt(bucket: string, region: string, puts: seq<Put>, n: nat, i: nat)
    requires i < n <= |puts|
    ensures ResultsPrefix(bucket, region, puts, n)[i] == UploadResult(PublicUrl(bucket, region, puts[i].key), puts[i].key)
  {
    var before := ResultsPrefix(bucket, region, puts, n - 1);
    var key := puts[n - 1].key;
    assert ResultsPrefix(bucket, region, puts, n) == before + [UploadResult(PublicUrl(bucket, region, key), key)];
    if i < n - 1 {
      ResultsPrefixAt(bucket, region, puts, n - 1, i);
    }
  }

  /**
   * A successful batch returns exactly one record per file, in input order,
   * each with the file's derived key and its public URL; a batch with any
   * failed put returns no records.
   */
  lemma UploadResultsMatchFiles(bucket: string, region: string, objects: Objects, files: seq<UploadFile>,
                                userId: string, clock: nat -> nat, faults: nat -> Option<Fault>, at: Moment)
    ensures var r := UploadOutcome(bucket, region, objects, Some(files), userId, clock, faults, at).0;
      && (r.Success? <==> forall i :: 0 <= i < |files| ==> faults(i).None?)
      && (r.Success? ==>
            && |r.value| == |files|
            && forall i :: 0 <= i < |files| ==>
                 r.value[i] == UploadResult(PublicUrl(bucket, region, BatchKey(files, userId, clock, i)),
                                            BatchKey(files, userId, clock, i)))
  {
    var ps := Puts(files, userId, clock);
    FirstFaultFindsAny(faults, |files|);
    forall i | 0 <= i < |files| ensures
      ResultsPrefix(bucket, region, ps, |ps|)[i]
        == UploadResult(PublicUrl(bucket, region, BatchKey(files, userId, clock, i)), BatchKey(files, userId, clock, i))
    {
      ResultsPrefixAt(bucket, region, ps, |ps|, i);
    }
  }

  /** Only the keys put can change: every other key keeps its object, or stays absent. */
  lemma {:induction false} PutPrefixLeavesOtherKeys(objects: Objects, puts: seq<Put>, faults: nat -> Option<Fault>,
                                                    n: nat, k: string)
    requires n <= |puts|
    requires forall i :: 0 <= i < n ==> puts[i].key != k
    ensures var after := PutPrefix(objects, puts, faults, n);
      (k in after <==> k in objects) && (k in objects ==> after[k] == objects[k])
  {
    if n > 0 {
      PutPrefixLeavesOtherKeys(objects, puts, faults, n - 1, k);
    }
  }

  /** Keys are never removed by a put, whether or not the batch succeeds. */
  lemma {:induction false} PutPrefixKeepsKeys(objects: Objects, puts: seq<Put>, faults: nat -> Option<Fault>, n: nat)
    requires n <= |puts|
    ensures objects.Keys <= PutPrefix(objects, puts, faults, n).Keys
  {
    if n > 0 {
      PutPrefixKeepsKeys(objects, puts, faults, n - 1);
    }
  }

  /** With distinct keys, a put that went through leaves its object under its key. */
  lemma {:induction false} PutPrefixHolds(objects: Objects, puts: seq<Put>, faults: nat -> Option<Fault>, n: nat, i: nat)
    requires i < n <= |puts|
    requires forall a, b :: 0 <= a < b < |puts| ==> puts[a].key != puts[b].key
    requires faults(i).None?
    ensures var after := PutPrefix(objects, puts, faults, n);
      puts[i].key in after && after[puts[i].key] == puts[i].stored
  {
    if i < n - 1 {
      PutPrefixHolds(objects, puts, faults, n - 1, i);
    }
  }

  /**
   * When the batch's keys are distinct, each file whose put went through is
   * stored under its key with its buffer, its declared content type and the
   * uploader/processed metadata.
   */
  lemma PutPrefixStoresFile(objects: Objects, files: seq<UploadFile>, userId: string,
                            clock: nat -> nat, faults: nat -> Option<Fault>, n: nat, i: nat)
    requires i < n <= |files|
    requires forall a, b :: 0 <= a < b < |files| ==> BatchKey(files, userId, clock, a) != BatchKey(files, userId, clock, b)
    requires faults(i).None?
    ensures var after := PutPrefix(objects, Puts(files, userId, clock), faults, n);
      var key := BatchKey(files, userId, clock, i);
      && key in after
      && after[key].body == files[i].buffer
      && after[key].contentType == files[i].mimetype
      && after[key].metadata.uploadedBy == userId
      && after[key].metadata.processed == "true"
  {
    var ps := Puts(files, userId, clock);
    PutPrefixHolds(objects, ps, faults, n, i);
  }

  // ---- deleteFromS3 ----

  /** The error a missing key is reported with (corrected: an `AppError` 404 "File not found"). */
  function NotFoundError(at: Moment): (t: Thrown)
    ensures t.App? && t.err.statusCode == 404 && t.err.status == "fail" && t.Message() == "File not found"
  {
    App(Make("File not found", 404, at))
  }

  /**
   * What the existence check throws for a service failure (corrected): 404
   * for `NotFound`, the SDK error otherwise.
   */
  function HeadError(f: Fault, at: Moment): Thrown {
    if f.name == "NotFound" then NotFoundError(at) else Native(f.name, f.message, None)
  }

  /**
   * The same check as written: `AppError` is not imported by the gateway, so
   * the `NotFound` branch throws a `ReferenceError` instead of the 404.
   */
  function HeadErrorAsWritten(f: Fault): Thrown {
    if f.name == "NotFound" then Native("ReferenceError", "AppError is not defined", None)
    else Native(f.name, f.message, None)
  }

  /**
   * As written, a missing object is reported as a `ReferenceError` without
   * status where the corrected check gives 404 "File not found"; every other
   * failure is passed on alike.
   */
  lemma HeadErrorAsWrittenLosesNotFound(f: Fault, at: Moment)
    ensures f.name == "NotFound" ==>
      && HeadError(f, at) == NotFoundError(at)
      && !HeadErrorAsWritten(f).App?
      && HeadErrorAsWritten(f).Message() == "AppError is not defined"
    ensures f.name != "NotFound" ==> HeadErrorAsWritten(f) == HeadError(f, at)
  {
  }

  /**
   * `deleteFromS3(key)`: the existence check, then the delete, built on the
   * corrected `HeadError`. A missing key is reported as 404 "File not
   * found" with nothing deleted; every error
   * carries the key; a successful call removes exactly that key.
   */
  function DeleteOutcome(objects: Objects, key: string, headFault: Option<Fault>, deleteFault: Option<Fault>, at: Moment)
    : (out: (Result<(), Thrown>, Objects))
    ensures out.0.Success? <==> headFault.None? && key in objects && deleteFault.None?
    ensures out.0.Success? ==> out.1 == objects - {key}
    ensures out.0.Failure? ==> out.1 == objects && out.0.error.Key() == Some(key)
    ensures headFault.None? && key !in objects ==>
      out.0.Failure? && out.0.error.App? && out.0.error.err.statusCode == 404 && out.0.error.Message() == "File not found"
  {
    if headFault.Some? then (Failure(HeadError(headFault.value, at).WithKey(key)), objects)
    else if key !in objects then (Failure(NotFoundError(at).WithKey(key)), objects)
    else if deleteFault.Some? then (Failure(Native(deleteFault.value.name, deleteFault.value.message, None).WithKey(key)), objects)
    else (Success(()), objects - {key})
  }

  /** A successful delete changes nothing but the deleted key. */
  lemma DeleteTouchesOnlyItsKey(objects: Objects, key: string, headFault: Option<Fault>, deleteFault: Option<Fault>,
                                at: Moment, other: string)
    requires other != key
    ensures var after := DeleteOutcome(objects, key, headFault, deleteFault, at).1;
      && (other in after <==> other in objects)
      && (other in objects ==> after[other] == objects[other])
      && (key !in after <==> (DeleteOutcome(objects, key, headFault, deleteFault, at).0.Success? || key !in objects))
  {
  }

  /** The bucket: its configured name and region, and its objects. */
  class Bucket {
    const name: string
    const region: string
    var objects: Objects

    constructor (name: string, region: string, objects: Objects)
      ensures this.name == name && this.region == region && this.objects == objects
    {
      this.name := name;
      this.region := region;
      this.objects := objects;
    }

    /** `uploadToS3(files, userId)`: put every file, then all results or the batch's failure. */
    method UploadToS3(files: Option<seq<UploadFile>>, userId: string, clock: nat -> nat,
                      faults: nat -> Option<Fault>, at: Moment)
      returns (r: Result<seq<UploadResult>, Thrown>)
      modifies this
      ensures (r, objects) == UploadOutcome(name, region, old(objects), files, userId, clock, faults, at)
    {
      if files.None? {
        return Failure(FilesRequired);
      }
      var fs := files.value;
      var results, failed := PutEach(Puts(fs, userId, clock), faults);
      if failed.Some? {
        r := Failure(StoreFailure(faults(failed.value).value.message, at));
      } else {
        r := Success(results);
      }
    }

    /** The puts of `files.map(...)`, issued in turn, and the records `Promise.all` would yield. */
    method PutEach(puts: seq<Put>, faults: nat -> Option<Fault>) returns (results: seq<UploadResult>, failed: Option<nat>)
      modifies this
      ensures objects == PutPrefix(old(objects), puts, faults, |puts|)
      ensures results == ResultsPrefix(name, region, puts, |puts|)
      ensures failed == FirstFault(faults, |puts|)
    {
      var store, bucket, place := objects, name, region;
      results, failed := [], None;
      var i := 0;
      while i < |puts|
        invariant 0 <= i <= |puts|
        invariant store == PutPrefix(old(objects), puts, faults, i)
        invariant results == ResultsPrefix(bucket, place, puts, i)
        invariant failed == FirstFault(faults, i)
      {
        var put := puts[i];
        if faults(i).None? {
          store := store[put.key := put.stored];
        } else if failed.None? {
          failed := Some(i);
        }
        results := results + [UploadResult(PublicUrl(bucket, place, put.key), put.key)];
        i := i + 1;
      }
      objects := store;
    }

    /** `deleteFromS3(key)`: existence check, then delete; any error gets the key attached. */
    method DeleteFromS3(key: string, headFault: Option<Fault>, deleteFault: Option<Fault>, at: Moment)
      returns (r: Result<(), Thrown>)
      modifies this
      ensures (r, objects) == DeleteOutcome(old(objects), key, headFault, deleteFault, at)
    {
      var err: Option<Thrown> := None;
      if headFault.Some? {
        err := Some(HeadError(headFault.value, at));
      } else if key !in objects {
        err := Some(NotFoundError(at));
      } else if deleteFault.Some? {
        err := Some(Native(deleteFault.value.name, deleteFault.value.message, None));
      } else {
        objects := objects - {key};
      }
      if err.Some? {
        r := Failure(err.value.WithKey(key));
      } else {
        r := Success(());
      }
    }
  }
}
