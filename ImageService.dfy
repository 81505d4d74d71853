/** The pure helpers of the image service: model-name normalisation, the
    storage object name and public URL, the content type of an extension,
    sniffing an image kind from its leading bytes, recognising and decoding
    base64 payloads, and the size and quality tables of the fallback image
    generator. Configuration values are parameters, and base64 decoding is
    a parameter `decode` that yields `None` where the decoder raises. */
module ImageService {
  import opened Common
  import opened Schemas

  type byte = b: int | 0 <= b < 256

  // ------------------------------------------------ model names

  /** `_normalize_model`. */
  function NormalizeModel(name: string): (r: string)
    ensures name == "" ==> r == ""
    ensures name != "" ==> StartsWith(r, "models/")
    ensures r == name || r == "models/" + name
  {
    if name == "" then name
    else if StartsWith(name, "models/") then name
    else "models/" + name
  }

  /** Normalising twice changes nothing more, and a name never gets the
      prefix twice. */
  lemma NormalizeModelIdempotent(name: string)
    ensures NormalizeModel(NormalizeModel(name)) == NormalizeModel(name)
    ensures StartsWith(name, "models/") ==> NormalizeModel(name) == name
  {
    if name != "" && !StartsWith(name, "models/") {
      assert ("models/" + name)[..|"models/"|] == "models/";
    }
  }

  // ------------------------------------------------ storage names

  /** `s.strip("/")`. */
  function StripSlashes(s: string): (r: string)
    ensures r == [] || (r[0] != '/' && r[|r| - 1] != '/')
  {
    TrimEndBy(TrimStartBy(s, IsSlash), IsSlash)
  }

  /** `_gcs_object_name`: the folder, its slashes trimmed, then the file name;
      just the file name when the folder is unset or only slashes. */
  function ObjectName(folder: Option<string>, filename: string): (r: string)
    ensures EndsWith(r, filename)
  {
    var prefix := StripSlashes(if folder.Some? then folder.value else "");
    if prefix != "" then prefix + "/" + filename else filename
  }

  /** The object name is `prefix/filename` for a prefix that neither starts
      nor ends with a slash, or the bare file name. */
  lemma ObjectNameShape(folder: Option<string>, filename: string)
    ensures var prefix := StripSlashes(if folder.Some? then folder.value else "");
            (prefix == "" ==> ObjectName(folder, filename) == filename)
            && (prefix != "" ==> ObjectName(folder, filename) == prefix + "/" + filename
                                 && prefix[0] != '/' && prefix[|prefix| - 1] != '/')
  {
  }

  /** Stripping twice strips nothing more, and a leading slash is ignored. */
  lemma StripSlashesIdempotent(s: string)
    ensures StripSlashes(StripSlashes(s)) == StripSlashes(s)
    ensures StripSlashes("/" + s) == StripSlashes(s)
  {
    var t := TrimStartBy(s, IsSlash);
    var r := TrimEndBy(t, IsSlash);
    assert r == [] || r[0] == t[0];
    TrimStartByNoop(r, IsSlash);
    TrimEndByNoop(r, IsSlash);
    TrimStartBySkips('/', s, IsSlash);
  }

  /** A folder written with extra slashes at either end names the same
      objects as the folder without them. */
  lemma ObjectNameIgnoresSlashes(folder: string, filename: string)
    ensures ObjectName(Some(StripSlashes(folder)), filename) == ObjectName(Some(folder), filename)
    ensures ObjectName(Some("/" + folder), filename) == ObjectName(Some(folder), filename)
  {
    StripSlashesIdempotent(folder);
  }

  /** `s.rstrip("/")`. */
  function StripTrailingSlashes(s: string): (r: string)
    ensures r == [] || r[|r| - 1] != '/'
  {
    TrimEndBy(s, IsSlash)
  }

  /** `_gcs_public_url`: fails when the bucket is unset or empty. */
  function PublicUrl(publicBase: Option<string>, bucket: Option<string>, objectName: string): (r: Result<string, string>)
    ensures r.Err? <==> bucket.None? || bucket.value == ""
    ensures r.Err? ==> r.error == "GCS_BUCKET is not set."
  {
    if bucket.None? || bucket.value == "" then Err("GCS_BUCKET is not set.")
    else
      var base := StripTrailingSlashes(if publicBase.Some? && publicBase.value != "" then publicBase.value
                                       else "https://storage.googleapis.com");
      Ok(base + "/" + bucket.value + "/" + objectName)
  }

  /** The URL is the base without trailing slashes, the bucket and the object
      name, each separated by one slash; with no base configured it is the
      public storage host. */
  lemma PublicUrlShape(publicBase: Option<string>, bucket: string, objectName: string)
    requires bucket != ""
    ensures var base := StripTrailingSlashes(if publicBase.Some? && publicBase.value != "" then publicBase.value
                                             else "https://storage.googleapis.com");
            PublicUrl(publicBase, Some(bucket), objectName) == Ok(base + "/" + bucket + "/" + objectName)
            && (base == [] || base[|base| - 1] != '/')
    ensures PublicUrl(None, Some(bucket), objectName) == Ok("https://storage.googleapis.com/" + bucket + "/" + objectName)
  {
    var host := "https://storage.googleapis.com";
    assert host[|host| - 1] == 'm';
    assert StripTrailingSlashes(host) == host;
    assert host + "/" + bucket + "/" + objectName == "https://storage.googleapis.com/" + bucket + "/" + objectName;
  }

  // ------------------------------------------------ content types

  predicate IsDot(c: char) {
    c == '.'
  }

  /** `_content_type_from_ext`: lower-cased, leading dots dropped. */
  function ContentTypeFromExt(ext: Option<string>): string
  {
    ContentTypeOf(TrimStartBy(Lower(if ext.Some? then ext.value else ""), IsDot))
  }

  /** The table of `_content_type_from_ext` on a cleaned extension. */
  function ContentTypeOf(e: string): (r: string)
    ensures r in {"image/jpeg", "image/png", "image/webp", "image/gif", "image/bmp", "application/octet-stream"}
  {
    if e == "jpg" || e == "jpeg" then "image/jpeg"
    else if e == "png" then "image/png"
    else if e == "webp" then "image/webp"
    else if e == "gif" then "image/gif"
    else if e == "bmp" then "image/bmp"
    else "application/octet-stream"
  }

  /** Extensions that differ only in letter case or in leading dots have
      the same content type. */
  lemma ContentTypeCaseAndDots(a: string, b: string)
    requires Lower(a) == Lower(b)
    ensures ContentTypeFromExt(Some(a)) == ContentTypeFromExt(Some(b))
    ensures ContentTypeFromExt(Some("." + a)) == ContentTypeFromExt(Some(a))
  {
    assert Lower("." + a) == "." + Lower(a);
    assert ("." + Lower(a))[1..] == Lower(a);
    assert TrimStartBy("." + Lower(a), IsDot) == TrimStartBy(Lower(a), IsDot);
  }

  // ------------------------------------------------ image kinds

  datatype ImageKind = Png | Jpeg | Gif | Webp | Bmp

  function KindName(k: ImageKind): string {
    match k
    case Png => "png"
    case Jpeg => "jpeg"
    case Gif => "gif"
    case Webp => "webp"
    case Bmp => "bmp"
  }

  const PngSignature: seq<byte> := [0x89, 0x50, 0x4E, 0x47, 0x0D, 0x0A, 0x1A, 0x0A]
  const JpegSignature: seq<byte> := [0xFF, 0xD8, 0xFF]
  const Gif87a: seq<byte> := [0x47, 0x49, 0x46, 0x38, 0x37, 0x61]
  const Gif89a: seq<byte> := [0x47, 0x49, 0x46, 0x38, 0x39, 0x61]
  const Riff: seq<byte> := [0x52, 0x49, 0x46, 0x46]
  const WebpTag: seq<byte> := [0x57, 0x45, 0x42, 0x50]
  const BmpSignature: seq<byte> := [0x42, 0x4D]
  /** "data:" */
  const DataScheme: seq<byte> := [0x64, 0x61, 0x74, 0x61, 0x3A]
  const Comma: byte := 0x2C

  predicate HasPrefix(data: seq<byte>, prefix: seq<byte>) {
    |prefix| <= |data| && data[..|prefix|] == prefix
  }

  /** `data[8:12] == b"WEBP"`. */
  predicate WebpAt8(data: seq<byte>) {
    |data| >= 12 && data[8..12] == WebpTag
  }

  /** `_detect_image_kind`: the signatures are tried in the source's order. */
  function DetectImageKind(data: seq<byte>): (r: Option<ImageKind>)
    ensures data == [] ==> r.None?
  {
    if data == [] then None
    else if HasPrefix(data, PngSignature) then Some(Png)
    else if HasPrefix(data, JpegSignature) then Some(Jpeg)
    else if HasPrefix(data, Gif87a) || HasPrefix(data, Gif89a) then Some(Gif)
    else if HasPrefix(data, Riff) && WebpAt8(data) then Some(Webp)
    else if HasPrefix(data, BmpSignature) then Some(Bmp)
    else None
  }

  /** What each kind's file must look like. */
  predicate Signed(data: seq<byte>, k: ImageKind) {
    match k
    case Png => HasPrefix(data, PngSignature)
    case Jpeg => HasPrefix(data, JpegSignature)
    case Gif => HasPrefix(data, Gif87a) || HasPrefix(data, Gif89a)
    case Webp => HasPrefix(data, Riff) && WebpAt8(data)
    case Bmp => HasPrefix(data, BmpSignature)
  }

  /** The signatures start with different bytes, so the order of the tests
      never matters: a kind is detected exactly when the data carries its
      signature. */
  lemma DetectIffSigned(data: seq<byte>, k: ImageKind)
    ensures DetectImageKind(data) == Some(k) <==> Signed(data, k)
  {
    if data != [] {
      assert HasPrefix(data, PngSignature) ==> data[0] == 0x89;
      assert HasPrefix(data, JpegSignature) ==> data[0] == 0xFF;
      assert HasPrefix(data, Gif87a) || HasPrefix(data, Gif89a) ==> data[0] == 0x47;
      assert HasPrefix(data, Riff) ==> data[0] == 0x52;
      assert HasPrefix(data, BmpSignature) ==> data[0] == 0x42;
    }
  }

  /** No recognised image starts with "data:". */
  lemma ImagesAreNotDataUris(data: seq<byte>)
    requires DetectImageKind(data).Some?
    ensures !HasPrefix(data, DataScheme)
  {
    assert data[0] in {0x89, 0xFF, 0x47, 0x52, 0x42};
  }

  // ------------------------------------------------ base64

  predicate IsBase64Byte(b: byte) {
    (0x41 <= b <= 0x5A) || (0x61 <= b <= 0x7A) || (0x30 <= b <= 0x39)
    || b == 0x2B || b == 0x2F || b == 0x3D || b == 0x0A || b == 0x0D
  }

  /** `_looks_like_base64`: non-empty, and its first 256 bytes are base64
      characters, '=' or line breaks. */
  function LooksLikeBase64(data: seq<byte>): (r: bool)
    ensures r <==> data != [] && forall i :: 0 <= i < |data| && i < 256 ==> IsBase64Byte(data[i])
  {
    data != [] && forall i :: 0 <= i < Min(|data|, 256) ==> IsBase64Byte(data[i])
  }

  /** Only the first 256 bytes are looked at. */
  lemma Base64LooksAtPrefix(data: seq<byte>, more: seq<byte>)
    requires |data| >= 256
    ensures LooksLikeBase64(data + more) == LooksLikeBase64(data)
  {
    assert forall i :: 0 <= i < 256 ==> (data + more)[i] == data[i];
  }

  /** `data.partition(b",")[2]`: what follows the first comma, or nothing. */
  function AfterComma(data: seq<byte>): (r: seq<byte>)
    ensures |r| < |data| || r == []
  {
    if data == [] then []
    else if data[0] == Comma then data[1..]
    else AfterComma(data[1..])
  }

  /** `_normalize_image_bytes`. */
  function NormalizeImageBytes(data: seq<byte>, decode: seq<byte> -> Option<seq<byte>>): (r: seq<byte>)
  {
    if data == [] then data
    else if HasPrefix(data, DataScheme) then
      match decode(AfterComma(data))
      case None => data
      case Some(decoded) => decoded
    else if DetectImageKind(data).Some? then data
    else if LooksLikeBase64(data) then
      match decode(data)
      case None => data
      case Some(decoded) => if DetectImageKind(decoded).Some? then decoded else data
    else data
  }

  /** Recognised images pass through untouched, and apart from a data URI
      the bytes change only into a recognised image. */
  lemma NormalizeKeepsImages(data: seq<byte>, decode: seq<byte> -> Option<seq<byte>>)
    ensures DetectImageKind(data).Some? ==> NormalizeImageBytes(data, decode) == data
    ensures var r := NormalizeImageBytes(data, decode);
            r != data ==> HasPrefix(data, DataScheme) || DetectImageKind(r).Some?
  {
    if DetectImageKind(data).Some? {
      ImagesAreNotDataUris(data);
    }
  }

  /** Normalising what normalisation produced from anything but a data URI
      changes nothing more. */
  lemma NormalizeIdempotentOffDataUris(data: seq<byte>, decode: seq<byte> -> Option<seq<byte>>)
    requires !HasPrefix(data, DataScheme)
    ensures var r := NormalizeImageBytes(data, decode);
            r == data || NormalizeImageBytes(r, decode) == r
  {
    var r := NormalizeImageBytes(data, decode);
    NormalizeKeepsImages(data, decode);
    if r != data {
      NormalizeKeepsImages(r, decode);
    }
  }

  // ------------------------------------------------ extensions

  /** `_extension_from_bytes`: a MIME type naming a format wins, then the
      sniffed kind (jpeg written "jpg"), then "png". */
  function ExtensionFromBytes(data: seq<byte>, mimeType: Option<string>): (r: string)
    ensures r in {"png", "jpg", "webp", "gif", "bmp"}
  {
    var mime := if mimeType.Some? then Lower(mimeType.value) else "";
    if mime != "" && Contains(mime, "png") then "png"
    else if mime != "" && (Contains(mime, "jpeg") || Contains(mime, "jpg")) then "jpg"
    else if mime != "" && Contains(mime, "webp") then "webp"
    else if mime != "" && Contains(mime, "gif") then "gif"
    else if mime != "" && Contains(mime, "bmp") then "bmp"
    else
      match DetectImageKind(data)
      case Some(Jpeg) => "jpg"
      case Some(k) => KindName(k)
      case None => "png"
  }

  /** The content type of a kind. */
  function KindMime(k: ImageKind): string {
    match k
    case Png => "image/png"
    case Jpeg => "image/jpeg"
    case Gif => "image/gif"
    case Webp => "image/webp"
    case Bmp => "image/bmp"
  }

  /** The file extension of a kind. */
  function KindExtension(k: ImageKind): string {
    if k == Jpeg then "jpg" else KindName(k)
  }

  /** Without a MIME type the extension is the sniffed kind's, and the
      content type served for that extension names that kind. */
  lemma ExtensionMatchesKind(data: seq<byte>, k: ImageKind)
    requires DetectImageKind(data) == Some(k)
    ensures ExtensionFromBytes(data, None) == KindExtension(k)
    ensures ContentTypeFromExt(Some(ExtensionFromBytes(data, None))) == KindMime(k)
  {
    KindExtensionType(k);
  }

  /** Each kind's extension is served with that kind's image type. */
  lemma KindExtensionType(k: ImageKind)
    ensures ContentTypeFromExt(Some(KindExtension(k))) == KindMime(k)
  {
    match k
    case Png =>
      assert KindExtension(k) == "png";
      CleanExtension("png");
      assert ContentTypeOf("png") == "image/png";
    case Jpeg =>
      assert KindExtension(k) == "jpg";
      CleanExtension("jpg");
      assert ContentTypeOf("jpg") == "image/jpeg";
    case Gif =>
      assert KindExtension(k) == "gif";
      CleanExtension("gif");
      assert ContentTypeOf("gif") == "image/gif";
    case Webp =>
      assert KindExtension(k) == "webp";
      CleanExtension("webp");
      assert ContentTypeOf("webp") == "image/webp";
    case Bmp =>
      assert KindExtension(k) == "bmp";
      CleanExtension("bmp");
      assert ContentTypeOf("bmp") == "image/bmp";
  }

  /** An extension without capitals or a leading dot is looked up as it is. */
  lemma CleanExtension(e: string)
    requires e in {"png", "jpg", "jpeg", "webp", "gif", "bmp"}
    ensures ContentTypeFromExt(Some(e)) == ContentTypeOf(e)
  {
    LowerOfLowercase(e);
    assert TrimStartBy(e, IsDot) == e;
  }

  /** Every extension chosen is served with an image content type. */
  lemma ExtensionHasImageType(data: seq<byte>, mimeType: Option<string>)
    ensures ContentTypeFromExt(Some(ExtensionFromBytes(data, mimeType))) != "application/octet-stream"
  {
    CleanExtension(ExtensionFromBytes(data, mimeType));
  }

  /** `_prepare_image`. */
  function PrepareImage(data: seq<byte>, mimeType: Option<string>, decode: seq<byte> -> Option<seq<byte>>)
    : (r: (seq<byte>, string))
    ensures r.0 == NormalizeImageBytes(data, decode)
    ensures r.1 == ExtensionFromBytes(r.0, mimeType)
  {
    var normalized := NormalizeImageBytes(data, decode);
    (normalized, ExtensionFromBytes(normalized, mimeType))
  }

  // ------------------------------------------------ fallback generator tables

  /** `aspect_ratio_map.get(ratio, "1024x1024")`. */
  function FallbackSize(ratio: string): string {
    if ratio == "1:1" then "1024x1024"
    else if ratio == "4:3" then "1024x768"
    else if ratio == "3:4" then "768x1024"
    else if ratio == "16:9" then "1792x1024"
    else if ratio == "9:16" then "1024x1792"
    else "1024x1024"
  }

  /** `quality_map.get(quality, "hd")`. */
  function FallbackQuality(quality: string): string {
    if quality == "low" || quality == "medium" then "standard"
    else "hd"
  }

  /** Every ratio the request model accepts has a size of its own, only
      the square one gets the default, and any other text gets the square
      default too. */
  lemma FallbackSizeTable(a: AspectRatio, b: AspectRatio, other: string)
    requires ParseAspect(other).None?
    ensures FallbackSize(other) == "1024x1024"
    ensures FallbackSize(AspectName(a)) == FallbackSize(AspectName(b)) ==> a == b
    ensures a == Square <==> FallbackSize(AspectName(a)) == "1024x1024"
  {
  }

  /** Only "low" and "medium" map to "standard"; "high" and anything else to "hd". */
  lemma FallbackQualityTable(q: Quality, other: string)
    ensures FallbackQuality(QualityName(q)) == "standard" <==> q != High
    ensures FallbackQuality(other) == "hd" <==> other != "low" && other != "medium"
  {
  }
}
