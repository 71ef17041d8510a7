/**
 * The storage gateway's string work: file-name sanitisation, Node's
 * `path.extname` / `path.parse(..).name` on the sanitised name, the storage
 * key and public URL derived from them, and the `encodeURIComponent`
 * applied to the original name in the object metadata.
 */
module S3Keys {
  import opened Wrappers
  import opened JsValues
  import opened Decimal

  /** The characters `/[^a-zA-Z0-9._-]/g` leaves alone. */
  predicate IsKeySafe(c: char) {
    ('a' <= c <= 'z') || ('A' <= c <= 'Z') || ('0' <= c <= '9') || c == '.' || c == '_' || c == '-'
  }

  function Underscores(n: nat): (r: string)
    ensures |r| == n && forall i :: 0 <= i < n ==> r[i] == '_'
  {
    if n == 0 then "" else "_" + Underscores(n - 1)
  }

  /**
   * `name.replace(/[^a-zA-Z0-9._-]/g, '_')`. The pattern has no `u` flag, so it
   * matches UTF-16 code units: a character beyond U+FFFF becomes two underscores.
   */
  function Sanitize(name: string): (r: string)
    ensures forall i :: 0 <= i < |r| ==> IsKeySafe(r[i])
    ensures |r| == JsLength(name)
  {
    if name == [] then []
    else (if IsKeySafe(name[0]) then [name[0]] else Underscores(Utf16Units(name[0]))) + Sanitize(name[1..])
  }

  /** Sanitising keeps the JavaScript length, and a name made of safe characters is left as it is. */
  lemma {:induction false} SanitizeKeepsSafeNames(name: string)
    requires forall i :: 0 <= i < |name| ==> IsKeySafe(name[i])
    ensures Sanitize(name) == name
  {
    if name != [] {
      SanitizeKeepsSafeNames(name[1..]);
    }
  }

  /** Sanitising is idempotent. */
  lemma SanitizeIdempotent(name: string)
    ensures Sanitize(Sanitize(name)) == Sanitize(name)
  {
    SanitizeKeepsSafeNames(Sanitize(name));
  }

  /** Index of the last '.' of `s`. */
  function LastDot(s: string): (r: Option<nat>)
    ensures r.Some? ==> r.value < |s| && s[r.value] == '.' && '.' !in s[r.value + 1..]
    ensures r.None? ==> '.' !in s
  {
    if s == [] then None
    else if s[|s| - 1] == '.' then Some(|s| - 1)
    else
      var r := LastDot(s[..|s| - 1]);
      assert s == s[..|s| - 1] + [s[|s| - 1]];
      if r.Some? then assert s[r.value + 1..] == s[..|s| - 1][r.value + 1..] + [s[|s| - 1]]; r else r
  }

  /**
   * Node's POSIX `path.extname` of a name without '/': from the last '.' to the
   * end, except that a dot that begins the name (".profile") or the name ".."
   * has no extension.
   */
  function ExtName(s: string): string
    requires '/' !in s
  {
    match LastDot(s)
    case None => ""
    case Some(d) => if d == 0 || s == ".." then "" else s[d..]
  }

  /** `path.parse(s).name` of a name without '/': the name without its extension. */
  function BaseName(s: string): string
    requires '/' !in s
  {
    s[..|s| - |ExtName(s)|]
  }

  /** An extension is empty or a '.' followed by no further '.', and name plus extension is the whole. */
  lemma ExtNameShape(s: string)
    requires '/' !in s
    ensures var e := ExtName(s);
      && BaseName(s) + e == s
      && (e == "" || (e[0] == '.' && '.' !in e[1..]))
      && (e == "" <==> ('.' !in s || (s[0] == '.' && '.' !in s[1..]) || s == ".."))
  {
    var e := ExtName(s);
    match LastDot(s)
    case None =>
    case Some(d) =>
      if e != "" {
        assert e == s[d..] && e[1..] == s[d + 1..];
        assert s[d] == '.' && d > 0;
        if s[0] == '.' { assert s[1..][d - 1] == '.'; }
      }
  }

  function LowerAscii(c: char): char {
    if 'A' <= c <= 'Z' then (c as int + 32) as char else c
  }

  /** `toLowerCase()` on text made of key-safe (ASCII) characters. */
  function ToLower(s: string): (r: string)
    ensures |r| == |s| && forall i :: 0 <= i < |s| ==> r[i] == LowerAscii(s[i])
  {
    if s == [] then [] else [LowerAscii(s[0])] + ToLower(s[1..])
  }

  /** `path.extname(sanitized).toLowerCase() || '.jpg'`. */
  function KeyExtension(sanitized: string): string
    requires '/' !in sanitized
  {
    var e := ToLower(ExtName(sanitized));
    if e == "" then ".jpg" else e
  }

  /** The folder every key of user `userId` lives in: `uploads/${userId}/`. */
  function OwnerPrefix(userId: string): string {
    "uploads/" + userId + "/"
  }

  /** The entry of a key below the owner's folder: `${timestamp}_${name}${ext}`. */
  function KeyLeaf(originalName: string, timestamp: nat): string {
    var sanitized := Sanitize(originalName);
    assert forall i :: 0 <= i < |sanitized| ==> sanitized[i] != '/';
    NatText(timestamp) + "_" + BaseName(sanitized) + KeyExtension(sanitized)
  }

  /** `generateS3Key(file, userId)` at clock reading `timestamp` (`Date.now()`). */
  function GenerateS3Key(originalName: string, userId: string, timestamp: nat): string {
    OwnerPrefix(userId) + KeyLeaf(originalName, timestamp)
  }

  predicate AllKeySafe(s: string) {
    forall i :: 0 <= i < |s| ==> IsKeySafe(s[i])
  }

  lemma ConcatKeySafe(a: string, b: string)
    requires AllKeySafe(a) && AllKeySafe(b)
    ensures AllKeySafe(a + b)
  {
    forall i | 0 <= i < |a + b| ensures IsKeySafe((a + b)[i]) {
      if i < |a| { assert (a + b)[i] == a[i]; } else { assert (a + b)[i] == b[i - |a|]; }
    }
  }

  /** The extension a key gets is made of key-safe characters. */
  lemma KeyExtensionIsSafe(sanitized: string)
    requires forall i :: 0 <= i < |sanitized| ==> IsKeySafe(sanitized[i])
    ensures '/' !in sanitized
    ensures AllKeySafe(BaseName(sanitized))
    ensures AllKeySafe(KeyExtension(sanitized))
  {
    assert forall i :: 0 <= i < |sanitized| ==> sanitized[i] != '/';
    var base := BaseName(sanitized);
    var ext := ExtName(sanitized);
    ExtNameShape(sanitized);
    forall i | 0 <= i < |base| ensures IsKeySafe(base[i]) { assert base[i] == sanitized[i]; }
    forall i | 0 <= i < |ext| ensures IsKeySafe(ext[i]) { assert ext[i] == sanitized[|base| + i]; }
    var low := ToLower(ext);
    forall i | 0 <= i < |low| ensures IsKeySafe(low[i]) { assert low[i] == LowerAscii(ext[i]); }
    assert KeyExtension(sanitized) == if low == "" then ".jpg" else low;
  }

  /**
   * Every key generated for a user lies directly in that user's folder: it
   * starts with `uploads/${userId}/`, and the rest is a single path segment of
   * key-safe characters that begins with the timestamp's digits and an underscore.
   */
  lemma GeneratedKeyShape(originalName: string, userId: string, timestamp: nat)
    ensures var key := GenerateS3Key(originalName, userId, timestamp);
      var leaf := KeyLeaf(originalName, timestamp);
      && key == OwnerPrefix(userId) + leaf
      && StartsWith(key, OwnerPrefix(userId))
      && AllKeySafe(leaf)
      && leaf[..|NatText(timestamp)| + 1] == NatText(timestamp) + "_"
  {
    var sanitized := Sanitize(originalName);
    KeyExtensionIsSafe(sanitized);
    var key := GenerateS3Key(originalName, userId, timestamp);
    var leaf := KeyLeaf(originalName, timestamp);
    var digits := NatText(timestamp);
    var base := BaseName(sanitized);
    var x := KeyExtension(sanitized);
    assert leaf == digits + "_" + base + x;
    assert key[..|OwnerPrefix(userId)|] == OwnerPrefix(userId);
    assert leaf[..|digits| + 1] == digits + "_";
    assert AllKeySafe(digits);
    assert AllKeySafe("_");
    ConcatKeySafe(digits, "_");
    ConcatKeySafe(digits + "_", base);
    ConcatKeySafe(digits + "_" + base, x);
  }

  /** The key ends in the sanitised name's extension, lower-cased, or in ".jpg" when it has none. */
  lemma GeneratedKeyExtension(originalName: string, userId: string, timestamp: nat)
    ensures var sanitized := Sanitize(originalName);
      assert forall i :: 0 <= i < |sanitized| ==> sanitized[i] != '/';
      var key := GenerateS3Key(originalName, userId, timestamp);
      var ext := ToLower(ExtName(sanitized));
      && (ext != "" ==> key[|key| - |ext|..] == ext)
      && (ext == "" ==> key[|key| - 4..] == ".jpg")
  {
  }

  /** The public URL of an object: `https://${bucket}.s3.${region}.amazonaws.com/${key}`. */
  function PublicUrl(bucket: string, region: string, key: string): string {
    "https://" + bucket + ".s3." + region + ".amazonaws.com/" + key
  }

  /** The URL ends in the key, after the bucket host's '/'. */
  lemma PublicUrlEndsWithKey(bucket: string, region: string, key: string)
    ensures var url := PublicUrl(bucket, region, key);
      |url| > |key| && url[|url| - |key|..] == key && url[|url| - |key| - 1] == '/'
  {
    var host := "https://" + bucket + ".s3." + region + ".amazonaws.com/";
    assert PublicUrl(bucket, region, key) == host + key;
  }

  // ---- encodeURIComponent, for the `originalName` metadata entry ----

  /** The characters `encodeURIComponent` never escapes. */
  predicate IsUriUnreserved(c: char) {
    ('a' <= c <= 'z') || ('A' <= c <= 'Z') || ('0' <= c <= '9')
    || c == '-' || c == '_' || c == '.' || c == '!' || c == '~' || c == '*' || c == '\'' || c == '(' || c == ')'
  }

  /** The UTF-8 encoding of one Unicode scalar value. */
  function Utf8(c: char): (bytes: seq<nat>)
    ensures 1 <= |bytes| <= 4 && forall i :: 0 <= i < |bytes| ==> bytes[i] < 256
  {
    var n := c as int;
    if n < 0x80 then [n]
    else if n < 0x800 then [0xC0 + n / 64, 0x80 + n % 64]
    else if n < 0x10000 then [0xE0 + n / 4096, 0x80 + (n / 64) % 64, 0x80 + n % 64]
    else [0xF0 + n / 262144, 0x80 + (n / 4096) % 64, 0x80 + (n / 64) % 64, 0x80 + n % 64]
  }

  function HexDigit(d: nat): (c: char)
    requires d < 16
    ensures IsUriUnreserved(c)
  {
    "0123456789ABCDEF"[d]
  }

  /** `%XY` for each byte. */
  function PercentBytes(bytes: seq<nat>): (r: string)
    requires forall i :: 0 <= i < |bytes| ==> bytes[i] < 256
    ensures |r| == 3 * |bytes|
    ensures forall i :: 0 <= i < |r| ==> r[i] == '%' || IsUriUnreserved(r[i])
  {
    if bytes == [] then "" else ['%', HexDigit(bytes[0] / 16), HexDigit(bytes[0] % 16)] + PercentBytes(bytes[1..])
  }

  /** `encodeURIComponent(s)`: unreserved characters kept, every other one as the percent-escapes of its UTF-8 bytes. */
  function EncodeUriComponent(s: string): (r: string)
    ensures forall i :: 0 <= i < |r| ==> r[i] == '%' || IsUriUnreserved(r[i])
    ensures |s| <= |r|
  {
    if s == [] then ""
    else (if IsUriUnreserved(s[0]) then [s[0]] else PercentBytes(Utf8(s[0]))) + EncodeUriComponent(s[1..])
  }

  /** A name of unreserved characters is its own encoding. */
  lemma {:induction false} EncodeKeepsUnreserved(s: string)
    requires forall i :: 0 <= i < |s| ==> IsUriUnreserved(s[i])
    ensures EncodeUriComponent(s) == s
  {
    if s != [] {
      EncodeKeepsUnreserved(s[1..]);
    }
  }

  /** Every character that needs escaping adds two characters: the encoding of `s` has no '%' exactly when nothing was escaped. */
  lemma {:induction false} EncodeHasPercentIffEscaped(s: string)
    ensures ('%' in EncodeUriComponent(s)) <==> exists i :: 0 <= i < |s| && !IsUriUnreserved(s[i])
  {
    if s != [] {
      EncodeHasPercentIffEscaped(s[1..]);
      var head := if IsUriUnreserved(s[0]) then [s[0]] else PercentBytes(Utf8(s[0]));
      assert EncodeUriComponent(s) == head + EncodeUriComponent(s[1..]);
      if !IsUriUnreserved(s[0]) { assert head[0] == '%'; }
      if exists i :: 0 <= i < |s[1..]| && !IsUriUnreserved(s[1..][i]) {
        var i :| 0 <= i < |s[1..]| && !IsUriUnreserved(s[1..][i]);
        assert !IsUriUnreserved(s[i + 1]);
      }
      if exists i :: 0 <= i < |s| && !IsUriUnreserved(s[i]) {
        var i :| 0 <= i < |s| && !IsUriUnreserved(s[i]);
        if i > 0 { assert !IsUriUnreserved(s[1..][i - 1]); }
      }
    }
  }
}
