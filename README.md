# Real-estate listing backend: media, listing creation and account gates

This project models the core of a real-estate listing backend (an Express
server over MongoDB and S3). It covers:

- the listing-media handlers, which optimise uploaded images, store them in
  an object bucket and delete them after checking that the caller owns them;
- the storage gateway those handlers call: key generation, a batch put, and
  a delete preceded by an existence check;
- the application error value (`AppError`): its constructor, static
  factories and JSON form;
- the listing schema: its enumerations, defaults and constraints, the unique
  lower-cased slug, and the save that enforces them;
- the `createAd` handler: required-field checks, geocoding as an oracle,
  photo normalisation, the save, the "Seller" role added to the poster, and
  the mapping of errors to replies;
- the account handlers `login`, `forgotPassword`, `updatePassword` and
  `updateUsername`, over a user store;
- the multipart upload filters and limits of the route middleware and of
  the shared multer configuration.

Request bodies are JSON values (`JsValues.Json`). JavaScript truthiness,
`trim`, `length` in UTF-16 units, `startsWith` and `includes` are modelled
on them, so the `TypeError`s the handlers raise on ill-typed input appear
as outcomes.

Each state-changing handler has two parts:

- a pure outcome function from the old state to the reply and the new state;
- a method over a class whose fields the handler changes, proved equal to
  that function.

The classes are `ObjectStore.Bucket`, `Listings.AdCollection` and
`Users.UserStore`. The properties are lemmas about the outcome functions.

Everything the handlers receive from outside is a parameter of the model:

- the image codec (`sharp`) and the geocoder;
- `Date.now()` readings, and `toISOString()` stamps (`Moment`, `now`);
- storage faults, by position;
- database faults, as booleans;
- mail delivery;
- hashing, password comparison and token signing (`Auth.Crypto`);
- the generated slug, ids and nicknames;
- `NODE_ENV === "development"`.

Modules:

| file | module | models |
|---|---|---|
| wrappers.dfy | Wrappers | `Option`, `Result` |
| js_values.dfy | JsValues | JSON values and the JavaScript operations on them |
| decimal.dfy | Decimal | `${n}` for integers, used by the status tag and the String cast |
| js_numbers.dfy | JsNumbers | `Number(s)` for strings, as the Number cast applies it |
| app_error.dfy | AppErrors | `AppError`, thrown values |
| profiles.dfy | Profiles | `OPTIMIZATION_PROFILES`, `getOptimizationProfile` |
| s3_keys.dfy | S3Keys | `generateS3Key`, public URLs, `encodeURIComponent` |
| object_store.dfy | ObjectStore | `uploadToS3`, `deleteFromS3` over a key→object map |
| upload_filters.dfy | UploadFilters | both `fileFilter`s and the multer limits |
| media.dfy | Media | ownership check and the four media handlers |
| listing_model.dfy | Listings | the listing schema and its save |
| users.dfy | Users | the user records and the updates issued on them |
| create_ad.dfy | CreateListing | `createAd` |
| auth.dfy | Auth | the four account handlers |

When the role update fails after a listing was saved, the handler answers
500 "Failed to create ad" and the saved listing stays
(`CreateListing.RoleFailureKeepsListing`).

Each defect listed under "## Findings" is modelled twice: as written, with
a lemma that shows the defect, and corrected. The handlers are built on the
corrected halves:

- `ObjectStore.UploadOutcome`, and so `ObjectStore.Bucket.UploadToS3` and
  both upload handlers, raise the corrected `ObjectStore.StoreFailure`;
- `ObjectStore.DeleteOutcome`, `ObjectStore.Bucket.DeleteFromS3`,
  `Media.RemoveSingleImage` and `Media.RemoveMultipleImages` use the
  corrected existence check `ObjectStore.HeadError`, whose missing key is
  the 404 `ObjectStore.NotFoundError`;
- every `AppError` the model builds is an `AppErrors.Make`, which is
  `AppErrors.NewAppError` without a status argument and so carries the
  corrected tag of `AppErrors.IntendedStatus` (`AppErrors.MakeIsConstructor`);
  without that argument the tag as written is the same
  (`AppErrors.StatusReadingsAgreeWithoutArgument`);
- the media handlers choose their profile with the corrected
  `Profiles.GetOptimizationProfile`.

## Model

| member | source | states |
|---|---|---|
| Profiles.GetOptimizationProfile | backend/server/controllers/ad.js:80-85 | an absent name or one that is not a key of the table gives `standard`; a key of the table gives its own profile; the result is always one of the four profiles |
| Profiles.OnlyWebpNameGivesWebp | backend/server/controllers/ad.js:13-42 | the profile's format is WebP exactly when the name is `webp` |
| Profiles.ProfilesAreWellFormed | backend/server/controllers/ad.js:13-42 | every selectable profile has a quality in 1..100 and positive width and height |
| Profiles.LookupAsWritten | backend/server/controllers/ad.js:81-84 | the lookup as written returns an inherited `Object.prototype` member exactly for an inherited name that is not a profile |
| Profiles.InheritedNameEscapesFallback | backend/server/controllers/ad.js:81-84 | `?profile=constructor` yields the inherited member as written and `standard` once corrected |
| Profiles.LookupsAgreeOnOtherNames | backend/server/controllers/ad.js:80-85 | for every other name the lookup as written and the corrected lookup give the same profile |
| Media.ProcessImage | backend/server/controllers/ad.js:50-73 | succeeds exactly when the codec does, with its output; a codec failure becomes a 400 "Image processing failed: " + its message |
| Media.GenerateFileMetadata | backend/server/controllers/ad.js:95-115 | the metadata of one stored file: its public URL and key, the original size, the processed size and their reduction in percent, the profile's format name and dimensions, and the time `now` |
| Media.Reduction | backend/server/controllers/ad.js:106 | no value for an empty original; otherwise the integer within half a point of 100·(1 − optimized/original) |
| Media.ReductionIsNearest | backend/server/controllers/ad.js:106 | that integer is unique: any integer within half a point is the one computed |
| Media.ReductionIsPercentage | backend/server/controllers/ad.js:106 | a file that did not grow saves between 0 and 100 percent |
| Media.ValidateKeyOwnership | backend/server/controllers/ad.js:237-245 | passes exactly for a string starting with `uploads/{userId}/`; a falsy key gives 400 "Image key is required"; a foreign string gives 403 "Unauthorized to access this resource"; a truthy non-string throws a TypeError |
| Media.GeneratedKeysPassOwnership | backend/server/controllers/ad.js:242 | every key the gateway generates for a user passes that user's ownership check |
| Media.OwnershipSeparatesUsers | backend/server/controllers/ad.js:242-244 | a key generated for one user is refused with 403 for any other user, when neither id holds '/' |
| Media.SingleUploadSemantics | backend/server/controllers/ad.js:120-152 | no file gives 400; a codec failure gives its 400 with the bucket unchanged; a 200 reply names the stored key, its URL, and an owned key holding the processed buffer typed `image/{format}` |
| Media.SingleUploadOutcome | backend/server/controllers/ad.js:120-155 | `uploadSingleImage`: no file gives 400 "No file uploaded. Use field name \"image\"", a processing failure is passed on, otherwise the processed file is put through the gateway and answered 200 with its metadata, or the gateway's error passed on |
| Media.UploadSingleImage | backend/server/controllers/ad.js:120-152 | the handler's reply and new bucket are those of `SingleUploadOutcome` |
| Media.ProcessOne | backend/server/controllers/ad.js:168-184 | a file is processed exactly when the codec succeeds on it; a failure keeps the file and the error's message |
| Media.ProcessAll | backend/server/controllers/ad.js:167-185 | one result per file, the i-th being the processing of the i-th file |
| Media.PartitionSplits | backend/server/controllers/ad.js:188-189 | the failed and successful lists have sizes summing to the number of results; each holds exactly the results of its kind |
| Media.PartitionKeepsOrder | backend/server/controllers/ad.js:188-189 | both filters distribute over concatenation, so input order is kept |
| Media.AllProcessedIffNoFailure | backend/server/controllers/ad.js:188-204 | every result is processed exactly when the failed list is empty, exactly when the successful list is as long as the input |
| Media.FailedFiles | backend/server/controllers/ad.js:216-219 | one entry per failure, in order, with the file's original name and the error message |
| Media.SuccessfulFiles | backend/server/controllers/ad.js:208-215 | the i-th entry describes the i-th processed file with the i-th upload record |
| Media.MultiUploadRejections | backend/server/controllers/ad.js:159-193 | a missing or empty list gives 400 with the bucket unchanged; when every file fails processing the reply is 400 "All files failed processing" and the bucket is unchanged |
| Media.MultiUploadOutcome | backend/server/controllers/ad.js:157-235 | `uploadMultipleImages`: no files gives 400, every file failing processing gives 400 "All files failed processing", otherwise the survivors are put as one batch and answered 200 when all survived and 207 otherwise, with the successes and the failures |
| Media.MultiUploadStatus | backend/server/controllers/ad.js:202-225 | a batch reply is 200 "success" exactly when every file processed, otherwise 207 "partial"; successful plus failed entries number the input files |
| Media.MultiUploadReplyForm | backend/server/controllers/ad.js:196-221 | the reply is built from the successes, in order, paired with the gateway's records, whose keys are those of the processed files in order |
| Media.MultiUploadRecords | backend/server/controllers/ad.js:208-215 | `successful[i]` carries the i-th processed file's key and comes from a request file |
| Media.FailuresCameFromFiles | backend/server/controllers/ad.js:216-219 | every failure the processing pass collects is a failed entry carrying a request file whose codec run failed |
| Media.MultiUploadFailedEntries | backend/server/controllers/ad.js:216-219 | each failed entry names a request file whose processing failed, with that failure's message |
| Media.Wrap | backend/server/controllers/ad.js:272-276 | in both handlers' catch blocks (also lines 346-350) an `AppError` is forwarded unchanged; anything else becomes a 500 AppError whose message is the prefix plus the error's message |
| Media.RemoveSingleSemantics | backend/server/controllers/ad.js:250-278 | a 200 reply happens exactly for an owned string key present in the bucket with no service fault, and removes exactly that key; every forwarded error is an AppError and leaves the bucket unchanged |
| Media.RemoveSingleOutcome | backend/server/controllers/ad.js:250-281 | `removeSingleImage`: a missing key gives 400 "Image key is required in request body"; the key must be owned by the caller; then the check-then-delete, answered 200 "Image successfully deleted", every error wrapped as "Failed to delete image: ..." unless already an application error |
| Media.RemoveSingleImage | backend/server/controllers/ad.js:250-278 | the handler's reply and new bucket are those of `RemoveSingleOutcome`, over the corrected existence check |
| Media.MissingKeyReplies | backend/server/controllers/ad.js:272-276 | under the check as written a missing key is answered 500 "Failed to delete image: AppError is not defined", and a batch lists "AppError is not defined" |
| Media.MissingKeyRepliesCorrected | backend/server/controllers/ad.js:272-276 | under the corrected check the 404 "File not found" is forwarded unchanged and listed by its message |
| Media.FirstOwnershipErrorFindsAny | backend/server/controllers/ad.js:301 | the validation pass reports an error exactly when some key fails the ownership check |
| Media.DeletePrefix | backend/server/controllers/ad.js:303-305 | one settled result per key issued |
| Media.DeletePrefixFacts | backend/server/controllers/ad.js:303-305 | every rejected delete carries its key; the bucket loses only keys of the list and keeps every other object |
| Media.SettledCounts | backend/server/controllers/ad.js:307-316 | fulfilled plus rejected deletes number the keys; every `failedDeletes` entry names a key of the request |
| Media.KeyStrings | backend/server/controllers/ad.js:290-305 | the i-th key string is the i-th request key |
| Media.RemoveManyBodyChecks | backend/server/controllers/ad.js:286-298 | missing keys, non-array keys and an empty array each give their 400, in that order, with nothing deleted |
| Media.RemoveManyOutcome | backend/server/controllers/ad.js:283-352 | `removeMultipleImages`: a missing, non-array or empty `keys` gives its own 400; every key is checked for ownership before any delete; then one check-then-delete per key, the outcomes classified into the reply |
| Media.FirstOwnershipErrorIsFirst | backend/server/controllers/ad.js:301 | the ownership scan returns the error of the first failing key, at or before any failing key |
| Media.RemoveManyChecksFirst | backend/server/controllers/ad.js:300-305 | one key failing the ownership check forwards the error of the first failing key, wrapped as "Failed to delete images: ..." unless it is already an application error, with the bucket unchanged: no delete is issued |
| Media.RemoveManyReplyForm | backend/server/controllers/ad.js:301-343 | once every key passes, the reply classifies the sequential deletes of exactly those keys |
| Media.RemoveManyClassification | backend/server/controllers/ad.js:307-343 | 200 means all keys were deleted; 207 means some deleted and some failed, counts summing to the keys, each failure naming a request key; otherwise 500 "Failed to delete all images" |
| Media.RemoveManyKeepsOthers | backend/server/controllers/ad.js:283-352 | an object whose key is not in the request is never removed or changed |
| Media.RemoveMultipleImages | backend/server/controllers/ad.js:283-352 | the handler's validation loop and delete loop give the reply and bucket of `RemoveManyOutcome`, over the corrected existence check |
| Media.DeleteEach | backend/server/controllers/ad.js:303-305 | deleting the keys in order leaves the bucket and the settled results that `DeletePrefix` gives |
| Media.UploadMultipleImages | backend/server/controllers/ad.js:157-229 | the handler's reply and new bucket are those of `MultiUploadOutcome` |
| S3Keys.Sanitize | backend/server/utils/s3-upload.js:28 | the result has only characters of `[A-Za-z0-9._-]` and the input's JavaScript length |
| S3Keys.SanitizeKeepsSafeNames | backend/server/utils/s3-upload.js:28 | a name made of allowed characters is left unchanged |
| S3Keys.SanitizeIdempotent | backend/server/utils/s3-upload.js:28 | sanitising twice is sanitising once |
| S3Keys.LastDot | backend/server/utils/s3-upload.js:29 | finds the last '.', with none after it, or reports that there is none |
| S3Keys.ExtName | backend/server/utils/s3-upload.js:29 | `path.extname` of a name: the text from its last dot, or "" when it has no dot, the last dot begins the name, or the name is ".." |
| S3Keys.ExtNameShape | backend/server/utils/s3-upload.js:29-30 | an extension is empty or a '.' and no other '.'; a leading dot is no extension; base name plus extension is the whole name |
| S3Keys.ToLower | backend/server/utils/s3-upload.js:29 | lower-cases each character, keeping the length |
| S3Keys.KeyExtensionIsSafe | backend/server/utils/s3-upload.js:29 | the extension and base name of a sanitised name hold only allowed characters |
| S3Keys.GenerateS3Key | backend/server/utils/s3-upload.js:26-31 | `uploads/{userId}/{timestamp}_{name}{ext}`: the sanitised name without its extension, then the lower-cased extension or ".jpg" when there is none |
| S3Keys.GeneratedKeyShape | backend/server/utils/s3-upload.js:30 | a key is `uploads/{userId}/` followed by one segment of allowed characters that starts with the timestamp's digits and '_' |
| S3Keys.GeneratedKeyExtension | backend/server/utils/s3-upload.js:29-30 | a key ends in the lower-cased extension, or in ".jpg" when there is none |
| S3Keys.PublicUrlEndsWithKey | backend/server/utils/s3-upload.js:62-65 | the Location ends in '/' followed by the key |
| S3Keys.EncodeUriComponent | backend/server/utils/s3-upload.js:54 | the encoding holds only '%' and unreserved characters and is no shorter than the name |
| S3Keys.EncodeKeepsUnreserved | backend/server/utils/s3-upload.js:54 | a name of unreserved characters is its own encoding |
| S3Keys.EncodeHasPercentIffEscaped | backend/server/utils/s3-upload.js:54 | the encoding holds '%' exactly when some character needed escaping |
| ObjectStore.StoreFailure | backend/server/utils/s3-upload.js:69-72 | the batch failure, corrected: a 500 AppError "Failed to upload to S3: " + the cause |
| ObjectStore.StoreFailureAsWritten | backend/server/utils/s3-upload.js:71 | the catch of `uploadToS3` as written: the ReferenceError "AppError is not defined", whatever the cause |
| ObjectStore.StoreFailureAsWrittenLosesCause | backend/server/utils/s3-upload.js:71 | as written the failure is a ReferenceError, the same for every cause, while the corrected messages tell causes apart |
| ObjectStore.UploadResultsMatchFiles | backend/server/utils/s3-upload.js:44-72 | a batch succeeds exactly when no put fails; it then returns one record per file in order, with the file's key and its public URL |
| ObjectStore.UploadOutcome | backend/server/utils/s3-upload.js:39-78 | `uploadToS3`: a missing list throws "Files array is required"; otherwise every file is put under its generated key, the puts that succeed stay, and the first failing put, in input order, fails the batch as "Failed to upload to S3: ..." |
| ObjectStore.PutPrefixStoresFile | backend/server/utils/s3-upload.js:48-60 | with distinct keys, each file stored is under its key with its buffer, its content type and the uploader and processed metadata |
| ObjectStore.PutPrefixLeavesOtherKeys | backend/server/utils/s3-upload.js:45-66 | a key that no put of the batch names keeps its object, or stays absent |
| ObjectStore.PutPrefixKeepsKeys | backend/server/utils/s3-upload.js:45-72 | no put removes a key, whether or not the batch succeeds |
| ObjectStore.Bucket.PutEach | backend/server/utils/s3-upload.js:45-68 | issuing the batch's puts leaves the bucket as `PutPrefix` says, returns each put's location and key, and reports the first failing put |
| ObjectStore.Bucket.UploadToS3 | backend/server/utils/s3-upload.js:39-73 | the method's result and bucket are those of `UploadOutcome`, including the missing-list error |
| ObjectStore.NotFoundError | backend/server/utils/s3-upload.js:92 | the missing key's error is an AppError 404 'fail' "File not found" |
| ObjectStore.HeadError | backend/server/utils/s3-upload.js:90-95 | the corrected existence check: a NotFound head fault becomes the 404 "File not found", any other fault is rethrown as it is |
| ObjectStore.HeadErrorAsWritten | backend/server/utils/s3-upload.js:90-95 | the existence check as written: a NotFound head fault becomes the ReferenceError "AppError is not defined", any other fault is rethrown |
| ObjectStore.HeadErrorAsWrittenLosesNotFound | backend/server/utils/s3-upload.js:90-95 | as written a `NotFound` failure becomes a ReferenceError "AppError is not defined" where the corrected check gives the 404; every other failure passes alike |
| ObjectStore.DeleteOutcome | backend/server/utils/s3-upload.js:80-108 | succeeds exactly when the key is present and no call fails, and then removes the key; under the corrected existence check a missing key gives 404 "File not found"; every failure carries the key and leaves the bucket unchanged |
| ObjectStore.DeleteTouchesOnlyItsKey | backend/server/utils/s3-upload.js:97-102 | every other key keeps its object; the key is gone exactly after a successful delete or when it was absent |
| ObjectStore.Bucket.DeleteFromS3 | backend/server/utils/s3-upload.js:80-108 | the method's result and bucket are those of `DeleteOutcome` |
| AppErrors.StatusAsWritten | backend/server/utils/app-error.js:19 | as written, any non-empty status argument gives 'fail'; without one, the tag is derived from the code |
| AppErrors.IntendedStatus | backend/server/utils/app-error.js:11-19 | corrected: a given status is kept; without one the tag is derived from the code |
| AppErrors.PrecedenceCounterexample | backend/server/utils/app-error.js:19 | `new AppError(m, 500, 'error')` is tagged 'fail' as written and 'error' once corrected |
| AppErrors.StatusReadingsAgreeWithoutArgument | backend/server/utils/app-error.js:19 | without a status argument the two readings agree |
| AppErrors.DefaultStatusOfHttpCode | backend/server/utils/app-error.js:19 | for a three-digit code, the derived tag is 'fail' exactly for 400..499 |
| Decimal.StartsWithFourIffClientCode | backend/server/utils/app-error.js:19 | the decimal text of a three-digit code starts with '4' exactly for 400..499 |
| AppErrors.NewAppError | backend/server/utils/app-error.js:14-21 | the code and message are stored as given; the status is the corrected tag of `IntendedStatus`; `isOperational` defaults to true; the construction time is recorded; nothing is attached |
| AppErrors.Make | backend/server/utils/app-error.js:14-21 | `new AppError(m, code)` stores code and message, is operational, and is tagged 'fail' exactly for 4xx codes |
| AppErrors.MakeIsConstructor | backend/server/utils/app-error.js:14-21 | `Make` is the constructor called with only a message and a status code |
| AppErrors.BadRequest | backend/server/utils/app-error.js:37-39 | 400 'fail', default message "Invalid request" |
| AppErrors.Unauthorized | backend/server/utils/app-error.js:46-48 | 401 'fail', default message "Not authorized" |
| AppErrors.Forbidden | backend/server/utils/app-error.js:55-57 | 403 'fail', default message "Forbidden" |
| AppErrors.NotFound | backend/server/utils/app-error.js:64-66 | 404 'fail', default message "Resource not found" |
| AppErrors.Conflict | backend/server/utils/app-error.js:73-75 | 409 'fail', default message "Resource conflict" |
| AppErrors.Validation | backend/server/utils/app-error.js:83-87 | 422 'fail', default message "Validation failed", and `errors` attached, `{}` by default |
| AppErrors.Internal | backend/server/utils/app-error.js:94-96 | 500 'error', default message "Internal server error" |
| AppErrors.ToJson | backend/server/utils/app-error.js:102-113 | status, code and message always; `errors` exactly when the attached value is truthy; stack and timestamp exactly in development |
| AppErrors.ValidationJsonListsErrors | backend/server/utils/app-error.js:83-107 | a validation error's JSON always lists `errors`, `{}` by default |
| AppErrors.ConstructedJsonIsMinimal | backend/server/utils/app-error.js:102-112 | outside development, a constructed error's JSON is exactly its status, code and message |
| AppErrors.WithKey | backend/server/utils/s3-upload.js:105 | `err.key = key` sets the key and keeps the message and the kind of error |
| Listings.ParsePropertyType | backend/server/models/ad.js:32-36 | a string is accepted only as the property type whose name it is |
| Listings.PropertyTypeRoundTrip | backend/server/models/ad.js:35 | each property type's name reads back as itself |
| Listings.ParseAction | backend/server/models/ad.js:65-69 | a string is accepted only as the action whose name it is |
| Listings.ActionRoundTrip | backend/server/models/ad.js:68 | each action's name reads back as itself |
| Listings.ParseStatus | backend/server/models/ad.js:74-86 | a string is accepted only as the status whose name it is |
| Listings.StatusRoundTrip | backend/server/models/ad.js:76-84 | each status's name reads back as itself |
| Listings.StatusNamesDistinct | backend/server/models/ad.js:76-84 | distinct statuses have distinct names |
| Listings.CastString | backend/server/models/ad.js:37-41 | strings stay; numbers and booleans become their text; `null` and an absent value are stored without value; an object with a non-empty string `_id` casts as that `_id`; arrays and every other object fail the String cast |
| Listings.CastNumber | backend/server/models/ad.js:37-41 | the Number cast: a number stays, a boolean becomes 1 or 0, null, undefined and "" are stored without value, other text is read by `Number(..)` and fails on NaN, arrays and objects fail |
| Listings.CastBoolean | backend/server/models/ad.js:61-64 | the Boolean cast: absent takes the default `true`, `null` stays, true/false and their usual text and number forms are read, anything else fails |
| Listings.CastViews | backend/server/models/ad.js:70-73 | the Number cast of `views` with its default 0 when absent |
| Listings.CastObjectId | backend/server/controllers/ad.js:411 | the ObjectId cast of the body's `_id`: absent stays absent, a text or an object's string `_id` must be 24 hexadecimal digits, anything else fails |
| Listings.BoundedString | backend/server/models/ad.js:22-47 | a stored value has at most 255 UTF-16 units; a string passes exactly when it is that short |
| Listings.ToLowerIdempotent | backend/server/models/ad.js:52 | lower-casing a stored slug again changes nothing |
| Listings.NumberTextCastsAlike | backend/server/models/ad.js:37-41 | an integer and its decimal text pass the Number cast alike, as that integer |
| Listings.NaNTextFailsCast | backend/server/models/ad.js:37-41 | a text fails the Number cast exactly when it is non-empty and `Number(..)` reads it as NaN |
| Listings.UnitTextFailsCast | backend/server/models/ad.js:39 | a land size written with its unit, "100 sqm", fails the Number cast |
| Listings.NumberCastReadsText | backend/server/models/ad.js:37-73 | a non-empty text that passes the Number cast is stored as `Number(..)` reads it, on `views` as on the other Number paths |
| Listings.NothingFailed | backend/server/models/ad.js:19-90 | a draft without violations passes the cast and validator of every path, including the Number, String, Boolean and enum casts |
| Listings.ViolatedIffFailed | backend/server/models/ad.js:19-90 | a path is reported as a violation exactly when its value fails that path's cast or validator |
| Listings.Violations | backend/server/models/ad.js:19-90 | one flag per typed path, in schema order, then `_id`: each path whose cast or validator fails |
| Listings.CastIsWellFormed | backend/server/models/ad.js:22-53 | a draft without violations is stored well formed: price, address and title within 255 units, a Point location and a lower-cased slug |
| Listings.Cast | backend/server/models/ad.js:19-90 | the listing a valid draft is stored as: every path cast, the defaults applied, the slug lower-cased, under its stored object id |
| Listings.CastAppliesDefaults | backend/server/models/ad.js:32-86 | absent paths of a valid draft are stored with the defaults Apartment, Sell, "In market", published and 0 views |
| Listings.CastStoresLandsize | backend/server/models/ad.js:39 | a valid draft's land size is stored as `Number(..)` reads its text, as the number given, or without value for `null`, an absent value and "" |
| Listings.SlugInUse | backend/server/models/ad.js:48-53 | the unique index's lookup reports exactly whether a stored listing has the slug |
| Listings.CastKeepsPaths | backend/server/models/ad.js:48-53 | the stored listing keeps the stored object id, the lower-cased slug, the poster, the photos, the location, the address string and the status "In market" |
| Listings.ConstraintsAreEnforced | backend/server/models/ad.js:22-47 | an overlong price, address or title is reported as a violation |
| Listings.LocationAndTypeEnforced | backend/server/models/ad.js:5-36 | a location of another type than "Point" and an unknown property type are each reported as violations |
| Listings.ObjectIdOfText | backend/server/controllers/ad.js:411 | a text casts to an object id exactly when it is 24 hexadecimal digits, and then to its lower-cased form |
| Listings.MalformedIdViolates | backend/server/controllers/ad.js:411 | a body `_id` text is reported as a violation exactly when it is not 24 hexadecimal digits; an absent `_id` never is |
| Listings.IdInUse | backend/server/controllers/ad.js:411 | the `_id` index's lookup reports exactly whether a stored listing has the object id |
| Listings.FailedValueIsQuoted | backend/server/controllers/ad.js:456-460 | the value of every failed path is quoted in the validation message |
| Listings.ValidationMessageQuotes | backend/server/controllers/ad.js:456-463 | a validation message holds "No results found" or "Google API Error" exactly when one of the values it quotes does |
| Listings.DetailsIncludes | backend/server/controllers/ad.js:456-463 | a marker text occurs in the joined entries of a validation message exactly when one of the quoted values holds it |
| Listings.ValidationFailure | backend/server/controllers/ad.js:456-476 | the ValidationError the handler catches: "Ad validation failed: " then each failing path with the value its error quotes, joined by ", ", and no code |
| Listings.SaveKeepsCollectionValid | backend/server/models/ad.js:19-90 | a save succeeds exactly for a draft that passes every path's cast (Number, String, Boolean, enum, ObjectId) and validator and whose object id and lower-cased slug are both free; it appends the cast listing; a taken id or slug fails with code 11000; the collection stays well formed with unique ids and unique slugs |
| Listings.SaveOutcome | backend/server/models/ad.js:19-90 | `save()` of a new listing: validation, then the `_id` index, then the slug index, then the append |
| Listings.AdCollection.Save | backend/server/models/ad.js:19-90 | the method's result and collection are those of `SaveOutcome` |
| CreateListing.RequiredFields | backend/server/controllers/ad.js:382-393 | six or eight required-field checks (`RequiredOrder` says which) |
| CreateListing.FirstMissing | backend/server/controllers/ad.js:373-379 | reports the first value that is falsy or a blank string, and nothing when none is |
| CreateListing.RequiredOrder | backend/server/controllers/ad.js:382-393 | the checks run as Photos, Description, Address, Property Type, Price, Action, then Landsize and Landsize Type for land |
| CreateListing.PhotosCheck | backend/server/controllers/ad.js:357-382 | the photo check fails for an absent, null or empty list, and passes for any non-empty array |
| CreateListing.FirstNullish | backend/server/controllers/ad.js:413-415 | finds a nullish item exactly when the list has one, and that item is nullish and in the list |
| CreateListing.NormalisePhotos | backend/server/controllers/ad.js:413-415 | one photo per item, where a string stays and anything else becomes its `url`; it fails exactly when some item is null or undefined |
| CreateListing.ErrorReply | backend/server/controllers/ad.js:456-476 | "No results found" gives 404, then "Google API Error" gives 502, then code 11000 gives 400, else 500 with the message only in development |
| CreateListing.BuildDraft | backend/server/controllers/ad.js:410-432 | the document handed to `new Ad(..)`: the body's schema paths and `_id`, overridden by the slug, the normalised photos, the address, the geocoded location and map, the poster and the status "In market" |
| CreateListing.DuplicateIdMapsToConflict | backend/server/controllers/ad.js:460-469 | the duplicate-id error of an id without "N" or "G" is never taken for a geocoder failure and maps to 400 "This property already exists" |
| CreateListing.StoredIdHasNoCapitals | backend/server/controllers/ad.js:411 | a stored object id, given and lower-cased or assigned in hexadecimal, holds neither "N" nor "G" |
| CreateListing.DuplicateSlugMapsToConflict | backend/server/controllers/ad.js:460-469 | the duplicate-slug error of a lower-cased slug is never taken for a geocoder failure and maps to 400 "This property already exists" |
| CreateListing.ValidationComesFirst | backend/server/controllers/ad.js:382-396 | a missing field answers 400 "`<name>` is required" before geocoding, whatever the geocoder, slug or role update would do, and changes nothing |
| CreateListing.StopsBeforeSave | backend/server/controllers/ad.js:355-432 | a request that does not reach the save changes nothing and is not answered 200 |
| CreateListing.CreateAdOutcome | backend/server/controllers/ad.js:354-477 | `createAd`: the missing body, the required fields, the address type, the geocoder, the photos, then the save and the role update, every caught error mapped by `ErrorReply` |
| CreateListing.SaveStageSemantics | backend/server/controllers/ad.js:410-455 | the collection stays valid; a save of a valid draft with a free object id and slug appends the cast listing; a failed one changes nothing; 200 happens exactly for a save followed by a role update; a failed role update leaves the users unchanged |
| CreateListing.CreatedListing | backend/server/controllers/ad.js:410-455 | a draft that passes every path's cast and validator, with a free object id and a free slug, is answered 200 with its summary, appended to the listings, and the poster gets "Seller" with set semantics |
| CreateListing.CreatedListingFields | backend/server/controllers/ad.js:410-432 | the stored listing is "In market", posted by the caller, with the lower-cased slug, the address, and the photos normalised item by item; its id is the assigned one without a body `_id`, and a body `_id` text, lower-cased, otherwise |
| CreateListing.TakenIdOrSlugIsConflict | backend/server/controllers/ad.js:410-469 | a draft that passes every cast and validator but whose object id or slug is taken is answered 400 "This property already exists" with nothing stored |
| CreateListing.RoleFailureKeepsListing | backend/server/controllers/ad.js:432-475 | a failed role update after a save of a draft passing every cast, with a free object id and slug, answers by the error mapping, keeps the listing and leaves the users unchanged |
| CreateListing.InvalidDraftRejected | backend/server/controllers/ad.js:410-476 | a draft that fails a cast or validator stores nothing and is answered by the mapping of its validation message: 404 when a quoted value holds "No results found", else 502 when one holds "Google API Error", else 500 "Failed to create ad" with the message in development only |
| CreateListing.InvalidDraftIsRefused | backend/server/controllers/ad.js:410-476 | a request reaching the save whose draft violates the schema changes nothing and is never answered 200; it is answered 404 when a quoted value holds "No results found" and 500 when no quoted value holds a geocoder marker |
| CreateListing.QuotedMarkerIsNotFound | backend/server/controllers/ad.js:456-460 | a property type "No results found" fails the enum and its quoted validation message is answered 404 "Address not found", nothing stored |
| CreateListing.MalformedIdIsRefused | backend/server/controllers/ad.js:410-476 | a body `_id` text that is not 24 hexadecimal digits stores nothing and is answered neither 200 nor 400, even when the slug is taken |
| CreateListing.UnitLandsizeViolates | backend/server/models/ad.js:39 | a draft whose land size is "100 sqm" violates the `landsize` path |
| CreateListing.LandsizeWithUnitIsRefused | backend/server/controllers/ad.js:410-476 | a request reaching the save with `landsize: "100 sqm"` violates `landsize`, changes nothing, is never answered 200, and is answered 500 "Failed to create ad" unless a quoted value holds a geocoder marker |
| CreateListing.GeocoderFailureStoresNothing | backend/server/controllers/ad.js:396-465 | a geocoder failure stores nothing and is answered by its message |
| CreateListing.CreateAd | backend/server/controllers/ad.js:354-477 | the handler's reply, listings and users are those of `CreateAdOutcome` |
| Users.AddToSet | backend/server/controllers/ad.js:437 | `$addToSet` keeps every role, adds the new one, and changes nothing when it is present |
| Users.AddToSetIsSetInsertion | backend/server/controllers/ad.js:437 | adding twice is adding once; a role held at most once is held exactly once afterwards |
| Users.AddRoleTouchesOnlyRoles | backend/server/controllers/ad.js:435-439 | only the caller's role list changes and it then holds "Seller"; an unknown id changes nothing; unique emails and usernames are kept |
| Users.UserStore.AddRole | backend/server/controllers/ad.js:435-439 | the store afterwards is `AddRoleState` of the old one |
| Users.UserStore.Create | backend/server/controllers/auth.js:43-47 | the new user is appended |
| Users.UserStore.SetPassword | backend/server/controllers/auth.js:170 | the store afterwards is `SetPasswordState` of the old one |
| Users.UserStore.SavePasswordAt | backend/server/controllers/auth.js:110-111 | only the found user's password changes |
| Users.UserStore.SetUsername | backend/server/controllers/auth.js:198-204 | the store is `SetUsernameState` of the old one; the updated user is returned exactly when the id exists |
| Auth.RequireText | backend/server/controllers/auth.js:24-31 | `!v?.trim()` passes exactly a non-blank string; nullish and blank strings fail with the field's message; other values throw a TypeError |
| Auth.EmailVerdict | backend/server/controllers/auth.js:19 | `validator.validate(email)`: a falsy email is refused, a truthy non-string throws "email.split is not a function", a non-empty string is judged by the validator |
| Auth.LoginChecksEmailFirst | backend/server/controllers/auth.js:19-21 | before any other check and with nothing changed: "A valid email is required" is answered exactly when the validator refuses the email, and a truthy non-string email throws the validator's TypeError out of the handler |
| Auth.LoginEmailGate | backend/server/controllers/auth.js:24-26 | "Email is required" is answered exactly when the validator accepted a non-empty all-whitespace string; a nullish email is refused by the validator before it |
| Auth.LoginPasswordGates | backend/server/controllers/auth.js:29-36 | "Password is required" exactly for a nullish or blank password; the length error exactly for a non-blank one under 6 units before trimming |
| Auth.LoginOnlyCreates | backend/server/controllers/auth.js:38-96 | login only ever appends one account, for an email no user has, holding the hash of the submitted password, and then answers its token |
| Auth.LoginKeepsEmailsUnique | backend/server/controllers/auth.js:39-47 | no login makes two accounts share an email |
| Auth.LoginOutcome | backend/server/controllers/auth.js:13-97 | `login`: the gates in order, then the lookup, the account creation with its welcome mail, or the password comparison |
| Auth.SignupThenLogin | backend/server/controllers/auth.js:39-89 | after an account was created, the same credentials log into it and change nothing, when comparison accepts a password against its own hash |
| Auth.SignupThenWrongPassword | backend/server/controllers/auth.js:74-77 | a password the comparison refuses against the stored hash is answered "Wrong password" |
| Auth.Login | backend/server/controllers/auth.js:13-97 | the handler's reply and store are those of `LoginOutcome` |
| Auth.ForgotPasswordHidesAccounts | backend/server/controllers/auth.js:103-122 | without a delivered mail, every store gets the same generic reply, so it does not tell whether the account exists |
| Auth.ForgotPasswordConfirms | backend/server/controllers/auth.js:108-117 | "Please check your email" is answered exactly when a stored account was reset and its mail sent |
| Auth.ForgotPasswordResets | backend/server/controllers/auth.js:108-111 | only the found account's password changes, to the hash of the temporary password, which then logs in |
| Auth.ForgotPasswordOutcome | backend/server/controllers/auth.js:99-128 | `forgotPassword`: the lookup, the generic reply for an unknown email, otherwise the temporary password saved and the mail's confirmation or the generic reply |
| Auth.ForgotPassword | backend/server/controllers/auth.js:99-128 | the handler's reply and store are those of `ForgotPasswordOutcome` |
| Auth.NewPasswordGateTrimsFirst | backend/server/controllers/auth.js:148-162 | a password passes, trimmed, exactly when it is a string of at least 6 units after trimming; "Password is required" exactly for a falsy or blank value; the length error exactly for a short trimmed string |
| Auth.UpdatePasswordStoresTrimmed | backend/server/controllers/auth.js:143-176 | `{ ok: true }` exactly for a string of at least 6 units after trimming; the caller's password is then the hash of the trimmed string; any other reply changes nothing |
| Auth.UpdatePasswordOutcome | backend/server/controllers/auth.js:143-176 | `updatePassword`: the trimmed password's gates, then the hash stored on the caller, or "Something went wrong" on a fault |
| Auth.PaddedPasswordGates | backend/server/controllers/auth.js:148-162 | " abcd " passes login's password and length checks (lines 29-36) but `updatePassword` refuses it as too short |
| Auth.UpdatePassword | backend/server/controllers/auth.js:143-176 | the handler's reply and store are those of `UpdatePasswordOutcome` |
| Auth.UsernameGateTrims | backend/server/controllers/auth.js:183-187 | a name passes, trimmed and non-empty, exactly when it is a non-blank string; "Username is required" exactly for a falsy or blank value |
| Auth.UpdateUsernameStoresTrimmed | backend/server/controllers/auth.js:183-207 | a rename succeeds exactly for a non-blank string that no user holds once trimmed, by an existing caller; the caller then holds the trimmed name; any other reply changes nothing |
| Auth.UpdateUsernameRefusesTaken | backend/server/controllers/auth.js:190-195 | a trimmed name held by any user, the caller included, is refused with the controller's "taken" message |
| Auth.UpdateUsernameKeepsUnique | backend/server/controllers/auth.js:190-204 | no rename makes two accounts share a username |
| Auth.UpdateUsernameOutcome | backend/server/controllers/auth.js:178-214 | `updateUsername`: the gate, the taken check on the trimmed name, then the rename answered with the updated user, or the catch-all reply |
| Auth.UpdateUsername | backend/server/controllers/auth.js:178-214 | the handler's reply and store are those of `UpdateUsernameOutcome` |
| JsNumbers.ReadsTrimmedLiteral | backend/server/models/ad.js:37-41 | `Number(s)` reads the literal left by trimming the whitespace at both ends |
| JsNumbers.StringToNumber | backend/server/models/ad.js:37-41 | `Number(..)` of a text, the StringToNumber operation of section 7.1.4.1.1 of ECMA-262: the trimmed text read as a decimal, hexadecimal, octal or binary literal or an Infinity, "" as 0, anything else NaN |
| JsNumbers.AcceptedTextIsNumeric | backend/server/models/ad.js:37-41 | a text `Number(..)` accepts holds, once trimmed, only digits, signs, a point, exponent and radix marks and the letters of `Infinity` |
| JsNumbers.NonNumericIsNaN | backend/server/models/ad.js:37-41 | a text holding, once trimmed, any other character is NaN |
| JsNumbers.UnpaddedNonNumericIsNaN | backend/server/models/ad.js:37-41 | the same for a text without whitespace at its ends |
| JsNumbers.UnitSuffixIsNaN | backend/server/models/ad.js:39 | "100 sqm" is NaN |
| JsNumbers.IntTextRoundTrip | backend/server/models/ad.js:37-41 | an integer's decimal text reads back as that integer |
| JsNumbers.FractionExample | backend/server/models/ad.js:37-41 | "2.5" reads as 2.5 |
| JsNumbers.ExponentExample | backend/server/models/ad.js:37-41 | "1e3" reads as 1000 |
| JsNumbers.HexExample | backend/server/models/ad.js:37-41 | "0x1F" reads as 31 |
| JsNumbers.DegenerateExamples | backend/server/models/ad.js:37-41 | "." and "-" are NaN; "-Infinity" is the negative infinity |
| UploadFilters.MiddlewareFileFilter | backend/server/middlewares/upload.js:6-13 | accepts exactly image/jpeg, image/png, image/jpg and image/webp; rejects with "Invalid file type. Only JPEG/PNG/WEBP allowed" |
| UploadFilters.ConfigFileFilter | backend/server/utils/multer-config.js:5-14 | accepts exactly the four types; rejects with a message listing them joined by ", " |
| UploadFilters.FiltersAgree | backend/server/middlewares/upload.js:7 | this filter and the one in `utils/multer-config.js` (line 6) accept the same four types |
| UploadFilters.UploadMultipleAdmitsFive | backend/server/middlewares/upload.js:23-30 | the batch middleware admits at most five files, and does admit five |
| UploadFilters.UploadSingleAdmitsOne | backend/server/middlewares/upload.js:16-20 | the single middleware admits at most one file, in field `image` |
| UploadFilters.SharedLimitCapsEveryExport | backend/server/utils/multer-config.js:18-33 | the shared `files: 1` limit caps every export at one file, `array('images', 5)` included |
| UploadFilters.OversizeRefused | backend/server/middlewares/upload.js:19 | a file over 10 MiB is refused by every middleware, this one and the one in `utils/multer-config.js` (line 7) |

## Left out

- `api` and `currentUser` in the auth controller are not modelled; they hold no checks.
- The read paths `read`, `adsForSell` and `incrementViewCount`, the routes and the server wiring are not modelled. The error middleware of the server wiring answers 500 for every forwarded error; the media handlers are modelled up to the `next(err)` they call.
- The image codec (`sharp`) is an oracle that returns a buffer or fails; nothing is claimed about dimensions or sizes.
- Media.Reduction: computed in exact integer arithmetic, rounding halves up as `Math.round` does; the floating-point division is not modelled, and an empty original file, for which the source computes NaN or -Infinity, has no value.
- Geocoding is an oracle. The geocoding helper exports nothing, so `geocodeAddress` is unresolved in the source.
- Slug generation (`slugify` with a `nanoid` suffix) and the username `nanoid(6)` are parameters, not computed.
- Listings.Cast: the schema's `lowercase` on the slug lower-cases ASCII letters only. A generated slug is already lower-cased by `slugify`, so only a slug given otherwise could differ.
- Hashing, password comparison and JWT signing are the `Auth.Crypto` oracles. The email validator is an oracle on a non-empty string email; its refusal of a falsy value and its TypeError on any other value follow the email-validator package, whose code is not part of this model.
- The welcome and reset mails, S3 and database calls are replaced by the outcome parameters and the in-memory stores. Their errors are booleans or `Fault` values given by position.
- `Promise.all` and `Promise.allSettled` are modelled as sequential maps that collect every outcome. In particular, a failed put in a batch still lets the other puts happen, in order.
- Key uniqueness is not claimed: two files of one batch with the same name and the same clock reading get the same key, and the later put wins (`ObjectStore.PutPrefixStoresFile` requires distinct keys).
- Listings.CastNumber: numbers are exact reals rather than doubles, so `Number(..)` does not round, an overflowing text such as "1e400" stays finite instead of becoming Infinity, and -0 is 0. Request bodies hold integers only.
- Listings.CastNumber: an object is never unwrapped through its `_id` or `valueOf`; every array and object fails the Number cast.
- Listings.CastString: a number's text is its full decimal expansion, where JavaScript switches to exponent form from 1e21.
- Listings.ValidationFailure: the validators' own wording around each quoted value is not modelled (it holds neither "No results found" nor "Google API Error"); the message lists each failing path with the value its error quotes, and an array or an object other than one with a string `_id` is shown by a placeholder, so a marker hidden inside such a value is not seen.
- Listings.CastString: an object whose own `toString` differs from the default is not modelled; objects are plain JSON.
- Listings.CastObjectId: an array `_id`, which the ObjectId cast reads through its comma-joined text (so `["<24 hex digits>"]` is a valid id), is treated as a violation, and so is an object whose `_id` is such an array.
- Listings.CastObjectId: a 12-character text, which the ObjectId cast reads as 12 raw bytes, is treated as a violation, as is a `null` body `_id`.
- Listings.SaveOutcome: the `_id` index is checked before the slug index; when both clash, only the order of the two messages would differ, and both are answered 400.
- CreateListing.TakenIdOrSlugIsConflict: the id the database assigns is taken to be 24 hexadecimal digits.
- A `null` value in an enum path is treated as a violation.
- The listing's `createdAt` and `updatedAt`, which the schema's `timestamps` option adds, are not modelled: `Listings.Ad` has neither, and values the body gives for them are not cast. The error `timestamp` and `stack` come from the `Moment` parameter.
- CreateListing.BuildDraft: the body's `__v` (the version key, a Number path), `createdAt` and `updatedAt` (Date paths) are not carried into the draft, so a body such as `__v: "x"` or `createdAt: "x"`, which fails those casts and is answered 500, is saved and answered 200 in the model; other keys outside the schema are dropped, as strict mode does.
- CreateListing.Summary: the returned `location` lacks the `_id` Mongoose gives the location sub-document, since the point schema does not turn `_id` off.
- The user schema is not part of this model. A new account's roles are a parameter, and `user.password = undefined` on the model object after the role update has no effect on any reply.
- `forgotPassword` with a non-string email (for example a query object) is treated as matching no account; Mongo query operators are not modelled.
- The express-validator rules and the React client are not modelled.

## Findings

| source | as written | input that shows it | evidently intended | confidence | as-written member | corrected member |
|---|---|---|---|---|---|---|
| backend/server/utils/s3-upload.js:71 | the catch builds `new AppError(..)`, but the gateway never imports `AppError`, so a failed put throws a ReferenceError "AppError is not defined" | any batch whose first put fails, e.g. with message "timeout" | a 500 AppError "Failed to upload to S3: timeout" | not executed; high | ObjectStore.StoreFailureAsWritten (shown by ObjectStore.StoreFailureAsWrittenLosesCause) | ObjectStore.StoreFailure |
| backend/server/utils/app-error.js:19 | `status \|\| x ? 'fail' : 'error'` parses as `(status \|\| x) ? 'fail' : 'error'`, so a given status is never kept and any non-empty one gives 'fail' | `new AppError("m", 500, "error")` is tagged 'fail' | keep the given status, and derive it from the code only when absent | not executed; high | AppErrors.StatusAsWritten (shown by AppErrors.PrecedenceCounterexample) | AppErrors.IntendedStatus |
| backend/server/utils/s3-upload.js:92 | the existence check throws `new AppError('File not found', 404)`, but `AppError` is not imported, so a missing object throws a ReferenceError "AppError is not defined" | `removeSingleImage` for an owned key that is not in the bucket answers 500 "Failed to delete image: AppError is not defined" | a 404 "File not found" forwarded unchanged | not executed; high | ObjectStore.HeadErrorAsWritten (shown by ObjectStore.HeadErrorAsWrittenLosesNotFound and Media.MissingKeyReplies) | ObjectStore.HeadError (with Media.MissingKeyRepliesCorrected) |
| backend/server/controllers/ad.js:81 | `!OPTIMIZATION_PROFILES[profileName]` is false for names inherited from `Object.prototype`, so such a name is returned as a "profile" | `?profile=constructor` yields the `Object` function | fall back to `standard` for any name that is not an own key of the table | not executed; medium | Profiles.LookupAsWritten (shown by Profiles.InheritedNameEscapesFallback) | Profiles.GetOptimizationProfile |
