/**
 * Resource names of `s3rn.py` and the compound ids of `relay_client.py`.
 * A field is `None` where Python's attribute is.
 */
module S3rn {
  import opened Common
  import opened Text

  type Field = Option<string>

  datatype Entity =
    | RelayProduct
    | Relay(relay: Field)
    | RemoteFolder(relay: Field, folder: Field)
    | RemoteDocument(relay: Field, folder: Field, document: Field)
    | RemoteCanvas(relay: Field, folder: Field, canvas: Field)
    | RemoteFile(relay: Field, folder: Field, file: Field)
    | RemoteBlob(relay: Field, folder: Field, file: Field, hash: Field, contentType: Field, contentLength: Field)
    | Folder(folder: Field)
    | Document(folder: Field, document: Field)
    | Canvas(folder: Field, canvas: Field)
    | File(folder: Field, file: Field)

  predicate IsHex(c: char) { '0' <= c <= '9' || 'a' <= c <= 'f' || 'A' <= c <= 'F' }

  predicate IsDashAt(i: int) { i == 8 || i == 13 || i == 18 || i == 23 }

  predicate UuidShape(s: string) {
    |s| == 36 && forall i :: 0 <= i < 36 ==> if IsDashAt(i) then s[i] == '-' else IsHex(s[i])
  }

  /** `validate_uuid`: the pattern's final `$` also matches just before a trailing newline. */
  predicate ValidUuid(s: string) {
    UuidShape(s) || (|s| == 37 && s[36] == '\n' && UuidShape(s[..36]))
  }

  predicate ValidField(f: Field) { f.Some? && ValidUuid(f.value) }

  /** How an f-string prints the attribute. */
  function Show(f: Field): string { if f.Some? then f.value else "None" }

  predicate HasRelay(e: Entity) {
    e.Relay? || e.RemoteFolder? || e.RemoteDocument? || e.RemoteCanvas? || e.RemoteFile? || e.RemoteBlob?
  }

  predicate HasFolder(e: Entity) { !e.RelayProduct? && !e.Relay? }

  predicate HasDocument(e: Entity) { e.RemoteDocument? || e.Document? }

  predicate HasCanvas(e: Entity) { e.RemoteCanvas? || e.Canvas? }

  predicate HasFile(e: Entity) { e.RemoteFile? || e.RemoteBlob? || e.File? }

  predicate HasHash(e: Entity) { e.RemoteBlob? && e.hash.Some? && e.hash.value != "" }

  predicate Encodable(e: Entity) {
    && (HasRelay(e) ==> ValidField(e.relay))
    && (HasFolder(e) ==> ValidField(e.folder))
    && (HasDocument(e) ==> ValidField(e.document))
    && (HasCanvas(e) ==> ValidField(e.canvas))
    && (HasFile(e) ==> ValidField(e.file))
  }

  function Piece(present: bool, tag: string, value: Field): seq<string> { if present then [tag, Show(value)] else [] }

  function Relays(e: Entity): Field { if HasRelay(e) then e.relay else None }

  function Folders(e: Entity): Field { if HasFolder(e) then e.folder else None }

  function Documents(e: Entity): Field { if HasDocument(e) then e.document else None }

  function Canvases(e: Entity): Field { if HasCanvas(e) then e.canvas else None }

  function FilesOf(e: Entity): Field { if HasFile(e) then e.file else None }

  /** The colon-separated segments `encode` appends, in its order. */
  function Segments(e: Entity): seq<string> {
    ["s3rn", "relay"]
    + (Piece(HasRelay(e), "relay", Relays(e))
       + (Piece(HasFolder(e), "folder", Folders(e))
          + (Piece(HasDocument(e), "doc", Documents(e))
             + (Piece(HasCanvas(e), "canvas", Canvases(e))
                + (Piece(HasFile(e), "file", FilesOf(e)) + HashSegments(e))))))
  }

  function HashSegments(e: Entity): seq<string> {
    if HasHash(e) then
      ["sha256", e.hash.value, "contentType", Show(e.contentType), "contentLength", Show(e.contentLength)]
    else []
  }

  function Encode(e: Entity): Result<string> {
    if Encodable(e) then Ok(Join(Segments(e), ':')) else Err
  }

  function Part(parts: seq<string>, i: nat): Field { if i < |parts| then Some(parts[i]) else None }

  predicate Acceptable(item: Field) { item.Some? && item.value != "" ==> ValidUuid(item.value) }

  function DecodeParts(parts: seq<string>): Result<Entity> {
    if |parts| < 3 || |parts| > 14 then Err
    else
      var product, type0, item0 := Part(parts, 1), Part(parts, 2), Part(parts, 3);
      var type1, item1, type2, item2 := Part(parts, 4), Part(parts, 5), Part(parts, 6), Part(parts, 7);
      var type3, item3, type4, item4 := Part(parts, 8), Part(parts, 9), Part(parts, 10), Part(parts, 11);
      var type5, item5 := Part(parts, 12), Part(parts, 13);
      var remoteFolder := product == Some("relay") && type0 == Some("relay") && type1 == Some("folder");
      var local := product == Some("relay") && type0 == Some("folder");
      if !Acceptable(item0) || !Acceptable(item1) || !Acceptable(item2) then Err
      else if remoteFolder && type2 == Some("doc") then Ok(RemoteDocument(item0, item1, item2))
      else if remoteFolder && type2 == Some("canvas") then Ok(RemoteCanvas(item0, item1, item2))
      else if remoteFolder && type2 == Some("file")
              && type3 == Some("sha256") && type4 == Some("contentType") && type5 == Some("contentLength") then
        Ok(RemoteBlob(item0, item1, item2, item3, item4, item5))
      else if remoteFolder && type2 == Some("file") then Ok(RemoteFile(item0, item1, item2))
      else if remoteFolder then Ok(RemoteFolder(item0, item1))
      else if local && type1 == Some("document") then Ok(Document(item0, item1))
      else if local && type1 == Some("canvas") then Ok(Canvas(item0, item1))
      else if local then Ok(Folder(item0))
      else if product == Some("relay") && type0 == Some("relay") then Ok(Relay(item0))
      else Err
  }

  function Decode(s: string): Result<Entity> { DecodeParts(Split(s, ':')) }

  /** The entities that come back: all but the product, the two whose tags differ, and blobs with a gap or a colon. */
  predicate Faithful(e: Entity) {
    match e
    case RelayProduct => false
    case Document(_, _) => false
    case File(_, _) => false
    case RemoteBlob(_, _, _, hash, contentType, contentLength) =>
      && hash.Some? && hash.value != "" && ':' !in hash.value
      && contentType.Some? && ':' !in contentType.value
      && contentLength.Some? && ':' !in contentLength.value
    case _ => true
  }

  lemma UuidChar(s: string, i: nat)
    requires ValidUuid(s) && i < |s|
    ensures if i == 36 then s[i] == '\n' else if IsDashAt(i) then s[i] == '-' else IsHex(s[i])
  {
    assert s[..36] == s || |s| == 37;
    assert i < 36 ==> s[i] == s[..36][i];
  }

  lemma UuidHasNoColon(s: string)
    requires ValidUuid(s)
    ensures ':' !in s
  {
    forall i | 0 <= i < |s|
      ensures s[i] != ':'
    {
      UuidChar(s, i);
    }
  }

  lemma PieceIsFree(present: bool, tag: string, value: Field, rest: seq<string>)
    requires ':' !in tag && (present ==> ValidField(value)) && Free(rest, ':')
    ensures Free(Piece(present, tag, value) + rest, ':')
  {
    if present {
      UuidHasNoColon(value.value);
    } else {
      assert Piece(present, tag, value) + rest == rest;
    }
  }

  lemma BlobSegments(e: Entity)
    requires e.RemoteBlob? && Encodable(e) && HasHash(e)
    ensures Segments(e) == ["s3rn", "relay", "relay", e.relay.value, "folder", e.folder.value, "file", e.file.value,
                            "sha256", e.hash.value, "contentType", Show(e.contentType),
                            "contentLength", Show(e.contentLength)]
  {
  }

  lemma SegmentsAreFree(e: Entity)
    requires Encodable(e)
    requires HasHash(e) ==> ':' !in e.hash.value && ':' !in Show(e.contentType) && ':' !in Show(e.contentLength)
    ensures Free(Segments(e), ':')
  {
    var hash := HashSegments(e);
    var file := Piece(HasFile(e), "file", FilesOf(e)) + hash;
    var canvas := Piece(HasCanvas(e), "canvas", Canvases(e)) + file;
    var document := Piece(HasDocument(e), "doc", Documents(e)) + canvas;
    var folder := Piece(HasFolder(e), "folder", Folders(e)) + document;
    PieceIsFree(HasFile(e), "file", FilesOf(e), hash);
    PieceIsFree(HasCanvas(e), "canvas", Canvases(e), file);
    PieceIsFree(HasDocument(e), "doc", Documents(e), canvas);
    PieceIsFree(HasFolder(e), "folder", Folders(e), document);
    PieceIsFree(HasRelay(e), "relay", Relays(e), folder);
  }

  lemma DecodeBlobSegments(e: Entity)
    requires Encodable(e) && HasHash(e) && Faithful(e)
    ensures DecodeParts(Segments(e)) == Ok(e)
  {
    BlobSegments(e);
  }

  lemma LocalSegments(e: Entity)
    requires Encodable(e) && !HasRelay(e)
    ensures e.RelayProduct? ==> Segments(e) == ["s3rn", "relay"]
    ensures e.Folder? ==> Segments(e) == ["s3rn", "relay", "folder", e.folder.value]
    ensures e.Document? ==> Segments(e) == ["s3rn", "relay", "folder", e.folder.value, "doc", e.document.value]
    ensures e.Canvas? ==> Segments(e) == ["s3rn", "relay", "folder", e.folder.value, "canvas", e.canvas.value]
    ensures e.File? ==> Segments(e) == ["s3rn", "relay", "folder", e.folder.value, "file", e.file.value]
  {
  }

  lemma RemoteSegments(e: Entity)
    requires Encodable(e) && HasRelay(e) && !HasHash(e)
    ensures e.Relay? ==> Segments(e) == ["s3rn", "relay", "relay", e.relay.value]
    ensures e.RemoteFolder? ==> Segments(e) == ["s3rn", "relay", "relay", e.relay.value, "folder", e.folder.value]
    ensures e.RemoteDocument? ==>
              Segments(e) == ["s3rn", "relay", "relay", e.relay.value, "folder", e.folder.value, "doc",
                              e.document.value]
    ensures e.RemoteCanvas? ==>
              Segments(e) == ["s3rn", "relay", "relay", e.relay.value, "folder", e.folder.value, "canvas",
                              e.canvas.value]
    ensures e.RemoteFile? || e.RemoteBlob? ==>
              Segments(e) == ["s3rn", "relay", "relay", e.relay.value, "folder", e.folder.value, "file", e.file.value]
  {
  }

  lemma DecodeLocal(e: Entity)
    requires Encodable(e) && !HasRelay(e)
    ensures DecodeParts(Segments(e)) == Ok(e) <==> Faithful(e)
  {
    LocalSegments(e);
  }

  lemma DecodeRemote(e: Entity)
    requires Encodable(e) && HasRelay(e) && !HasHash(e)
    ensures DecodeParts(Segments(e)) == Ok(e) <==> Faithful(e)
  {
    RemoteSegments(e);
  }

  lemma ColonBreaksBlob(e: Entity)
    requires Encodable(e) && HasHash(e)
    requires ':' in e.hash.value || ':' in Show(e.contentType) || ':' in Show(e.contentLength)
    ensures Decode(Join(Segments(e), ':')) == Err
  {
    BlobSegments(e);
    var segments := Segments(e);
    assert segments[9] == e.hash.value && segments[11] == Show(e.contentType) && segments[13] == Show(e.contentLength);
    SplitJoinCount(segments, ':');
  }

  /** decode(encode(e)) is e exactly for the faithful entities. */
  lemma RoundTrip(e: Entity)
    requires Encode(e).Ok?
    ensures Decode(Encode(e).value) == Ok(e) <==> Faithful(e)
  {
    if !HasHash(e) {
      PlainRoundTrip(e);
    } else if ':' in e.hash.value || ':' in Show(e.contentType) || ':' in Show(e.contentLength) {
      ColonBreaksBlob(e);
    } else {
      BlobRoundTrip(e);
    }
  }

  lemma PlainRoundTrip(e: Entity)
    requires Encode(e).Ok? && !HasHash(e)
    ensures Decode(Encode(e).value) == Ok(e) <==> Faithful(e)
  {
    SegmentsAreFree(e);
    SplitJoin(Segments(e), ':');
    if HasRelay(e) { DecodeRemote(e); } else { DecodeLocal(e); }
  }

  lemma BlobRoundTrip(e: Entity)
    requires Encode(e).Ok? && HasHash(e)
    requires ':' !in e.hash.value && ':' !in Show(e.contentType) && ':' !in Show(e.contentLength)
    ensures Decode(Encode(e).value) == Ok(e) <==> Faithful(e)
  {
    SegmentsAreFree(e);
    SplitJoin(Segments(e), ':');
    if Faithful(e) { DecodeBlobSegments(e); } else { BlobSegments(e); }
  }

  lemma EncodeIsInjective(a: Entity, b: Entity)
    requires Encode(a).Ok? && Encode(a) == Encode(b) && Faithful(a) && Faithful(b)
    ensures a == b
  {
    RoundTrip(a);
    RoundTrip(b);
  }

  // ----- the names as written -----

  predicate AllHex(s: string) { forall i :: 0 <= i < |s| ==> s[i] in "0123456789abcdefABCDEF" }

  lemma HexIs(c: char)
    ensures IsHex(c) <==> c in "0123456789abcdefABCDEF"
  {
    var digits := "0123456789abcdefABCDEF";
    if '0' <= c <= '9' {
      assert digits[c as int - 48] == c;
    } else if 'a' <= c <= 'f' {
      assert digits[c as int - 87] == c;
    } else if 'A' <= c <= 'F' {
      assert digits[c as int - 49] == c;
    }
  }

  lemma AllHexIs(s: string)
    ensures AllHex(s) <==> forall i :: 0 <= i < |s| ==> IsHex(s[i])
  {
    forall i | 0 <= i < |s|
      ensures IsHex(s[i]) <==> s[i] in "0123456789abcdefABCDEF"
    {
      HexIs(s[i]);
    }
  }

  lemma GroupsAre(a: string, b: string, c: string, d: string, e: string)
    ensures AllHex(a) && AllHex(b) && AllHex(c) && AllHex(d) && AllHex(e) <==>
            forall s, i :: s in [a, b, c, d, e] && 0 <= i < |s| ==> IsHex(s[i])
  {
    AllHexIs(a);
    AllHexIs(b);
    AllHexIs(c);
    AllHexIs(d);
    AllHexIs(e);
  }

  /** Five groups of hexadecimal digits between dashes. */
  predicate IsGrouped(s: string, a: string, b: string, c: string, d: string, e: string) {
    && |a| == 8 && |b| == 4 && |c| == 4 && |d| == 4 && |e| == 12
    && AllHex(a) && AllHex(b) && AllHex(c) && AllHex(d) && AllHex(e)
    && s == a + "-" + b + "-" + c + "-" + d + "-" + e
  }

  lemma GroupsAreShape(s: string, a: string, b: string, c: string, d: string, e: string)
    requires IsGrouped(s, a, b, c, d, e)
    ensures UuidShape(s)
  {
    GroupsAre(a, b, c, d, e);
  }

  lemma ShapeIsGrouped(s: string)
    requires UuidShape(s)
    ensures IsGrouped(s, s[..8], s[9..13], s[14..18], s[19..23], s[24..])
  {
    assert s == s[..8] + [s[8]] + s[9..13] + [s[13]] + s[14..18] + [s[18]] + s[19..23] + [s[23]] + s[24..];
    GroupsAre(s[..8], s[9..13], s[14..18], s[19..23], s[24..]);
  }

  ghost predicate HasGroups(s: string) { exists a, b, c, d, e :: IsGrouped(s, a, b, c, d, e) }

  lemma ShapeIs(s: string)
    ensures UuidShape(s) <==> HasGroups(s)
  {
    if UuidShape(s) {
      ShapeIsGrouped(s);
    }
    if a, b, c, d, e :| IsGrouped(s, a, b, c, d, e) {
      GroupsAreShape(s, a, b, c, d, e);
    }
  }

  /** What is accepted as a UUID; the pattern lets one newline follow. */
  lemma ValidUuidIs(s: string)
    ensures ValidUuid(s) <==> HasGroups(s) || (|s| == 37 && s[36] == '\n' && HasGroups(s[..36]))
  {
    ShapeIs(s);
    if |s| == 37 {
      ShapeIs(s[..36]);
    }
  }

  /** The name is these parts with colons between them. */
  predicate HasParts(e: Entity, parts: seq<string>) { Encode(e).Ok? && Split(Encode(e).value, ':') == parts }

  lemma NameHasSegments(e: Entity)
    requires Encodable(e)
    requires HasHash(e) ==> ':' !in e.hash.value && ':' !in Show(e.contentType) && ':' !in Show(e.contentLength)
    ensures HasParts(e, Segments(e))
  {
    SegmentsAreFree(e);
    SplitJoin(Segments(e), ':');
  }

  lemma FolderName(r: string, f: string)
    requires ValidUuid(r) && ValidUuid(f)
    ensures HasParts(Relay(Some(r)), ["s3rn", "relay", "relay", r])
    ensures HasParts(RemoteFolder(Some(r), Some(f)), ["s3rn", "relay", "relay", r, "folder", f])
  {
    NameHasSegments(Relay(Some(r)));
    NameHasSegments(RemoteFolder(Some(r), Some(f)));
  }

  lemma DocumentName(r: string, f: string, x: string)
    requires ValidUuid(r) && ValidUuid(f) && ValidUuid(x)
    ensures HasParts(RemoteDocument(Some(r), Some(f), Some(x)), ["s3rn", "relay", "relay", r, "folder", f, "doc", x])
  {
    NameHasSegments(RemoteDocument(Some(r), Some(f), Some(x)));
  }

  lemma CanvasName(r: string, f: string, x: string)
    requires ValidUuid(r) && ValidUuid(f) && ValidUuid(x)
    ensures HasParts(RemoteCanvas(Some(r), Some(f), Some(x)), ["s3rn", "relay", "relay", r, "folder", f, "canvas", x])
  {
    NameHasSegments(RemoteCanvas(Some(r), Some(f), Some(x)));
  }

  lemma FileName(r: string, f: string, x: string)
    requires ValidUuid(r) && ValidUuid(f) && ValidUuid(x)
    ensures HasParts(RemoteFile(Some(r), Some(f), Some(x)), ["s3rn", "relay", "relay", r, "folder", f, "file", x])
  {
    NameHasSegments(RemoteFile(Some(r), Some(f), Some(x)));
  }

  /** What stands for an attribute that is not set. */
  function OrNone(f: Field): string {
    match f
    case Some(value) => value
    case None => "None"
  }

  /** A blob's name adds its hash, its content type and its length. */
  lemma BlobName(r: string, f: string, x: string, hash: string, kind: Field, length: Field)
    requires ValidUuid(r) && ValidUuid(f) && ValidUuid(x)
    requires hash != "" && ':' !in hash && ':' !in OrNone(kind) && ':' !in OrNone(length)
    ensures HasParts(RemoteBlob(Some(r), Some(f), Some(x), Some(hash), kind, length),
                     ["s3rn", "relay", "relay", r, "folder", f, "file", x,
                      "sha256", hash, "contentType", OrNone(kind), "contentLength", OrNone(length)])
  {
    var e := RemoteBlob(Some(r), Some(f), Some(x), Some(hash), kind, length);
    BlobSegments(e);
    NameHasSegments(e);
  }

  /** The ids an entity is made of, outermost first. */
  function Ids(e: Entity): seq<Field> {
    match e
    case RelayProduct => []
    case Relay(r) => [r]
    case RemoteFolder(r, f) => [r, f]
    case RemoteDocument(r, f, x) => [r, f, x]
    case RemoteCanvas(r, f, x) => [r, f, x]
    case RemoteFile(r, f, x) => [r, f, x]
    case RemoteBlob(r, f, x, _, _, _) => [r, f, x]
    case Folder(f) => [f]
    case Document(f, x) => [f, x]
    case Canvas(f, x) => [f, x]
    case File(f, x) => [f, x]
  }

  /** An entity has a name if and only if all its ids are there and are UUIDs. */
  lemma EncodesIff(e: Entity)
    ensures Encode(e).Ok? <==> forall f :: f in Ids(e) ==> f.Some? && ValidUuid(f.value)
  {
  }

  // ----- what is read -----

  /** Whatever decodes has UUIDs, or nothing, in the three places where a name has them. */
  lemma ReadIsValid(s: string, i: nat)
    requires Decode(s).Ok? && (i == 3 || i == 5 || i == 7) && i < |Split(s, ':')|
    ensures Split(s, ':')[i] == "" || ValidUuid(Split(s, ':')[i])
  {
    var parts := Split(s, ':');
    assert Acceptable(Part(parts, 3)) && Acceptable(Part(parts, 5)) && Acceptable(Part(parts, 7));
  }

  /** Local documents and canvases, under the words the reader knows. */
  lemma LocalIsRead(f: string, x: string)
    requires ValidUuid(f) && ValidUuid(x)
    ensures Decode(Join(["s3rn", "relay", "folder", f, "document", x], ':')) == Ok(Document(Some(f), Some(x)))
    ensures Decode(Join(["s3rn", "relay", "folder", f, "canvas", x], ':')) == Ok(Canvas(Some(f), Some(x)))
  {
    UuidHasNoColon(f);
    UuidHasNoColon(x);
    SplitJoin(["s3rn", "relay", "folder", f, "document", x], ':');
    SplitJoin(["s3rn", "relay", "folder", f, "canvas", x], ':');
  }

  lemma FolderPartsAre(parts: seq<string>, e: Entity)
    requires DecodeParts(parts) == Ok(e) && Encodable(e) && (e.Relay? || e.RemoteFolder?)
    requires parts[0] == "s3rn" && |parts| == |Segments(e)|
    ensures parts == Segments(e)
  {
    RemoteSegments(e);
  }

  lemma RemotePartsAre(parts: seq<string>, e: Entity)
    requires DecodeParts(parts) == Ok(e) && Encodable(e) && (e.RemoteDocument? || e.RemoteCanvas? || e.RemoteFile?)
    requires parts[0] == "s3rn" && |parts| == |Segments(e)|
    ensures parts == Segments(e)
  {
    RemoteSegments(e);
  }

  lemma LocalPartsAre(parts: seq<string>, e: Entity)
    requires DecodeParts(parts) == Ok(e) && Encodable(e) && (e.Folder? || e.Canvas?)
    requires parts[0] == "s3rn" && |parts| == |Segments(e)|
    ensures parts == Segments(e)
  {
    LocalSegments(e);
  }

  lemma BlobPartsAre(parts: seq<string>, e: Entity)
    requires DecodeParts(parts) == Ok(e) && Encodable(e) && e.RemoteBlob? && Faithful(e)
    requires parts[0] == "s3rn" && |parts| == |Segments(e)|
    ensures parts == Segments(e)
  {
    BlobSegments(e);
  }

  /**
   * The other way round: encoding what was read gives the string back exactly when
   * it begins with the prefix, which the reader does not look at, and nothing follows.
   */
  lemma ReadRoundTrip(s: string, e: Entity)
    requires Decode(s) == Ok(e) && Encode(e).Ok? && Faithful(e)
    ensures Encode(e) == Ok(s) <==> Split(s, ':')[0] == "s3rn" && |Split(s, ':')| == |Segments(e)|
  {
    var parts := Split(s, ':');
    JoinSplit(s, ':');
    NameHasSegments(e);
    if parts[0] == "s3rn" && |parts| == |Segments(e)| {
      match e
      case RemoteBlob(_, _, _, _, _, _) => BlobPartsAre(parts, e);
      case Relay(_) => FolderPartsAre(parts, e);
      case RemoteFolder(_, _) => FolderPartsAre(parts, e);
      case Folder(_) => LocalPartsAre(parts, e);
      case Canvas(_, _) => LocalPartsAre(parts, e);
      case _ => RemotePartsAre(parts, e);
    } else {
      assert Segments(e)[0] == "s3rn";
    }
  }

  lemma PlainIsRead(e: Entity)
    requires Encode(e).Ok? && !HasHash(e)
    ensures Decode(Encode(e).value) == DecodeParts(Segments(e))
  {
    SegmentsAreFree(e);
    SplitJoin(Segments(e), ':');
  }

  /** What the entities that do not come back come back as: a local document or file as its folder, the product not. */
  lemma UnfaithfulIsRead(e: Entity)
    requires Encode(e).Ok? && (e.RelayProduct? || e.Document? || e.File?)
    ensures Decode(Encode(e).value) == if e.RelayProduct? then Err else Ok(Folder(e.folder))
  {
    PlainIsRead(e);
    LocalSegments(e);
    match e
    case RelayProduct =>
    case Document(f, x) => ReadFolder(f.value, "doc", x.value);
    case File(f, x) => ReadFolder(f.value, "file", x.value);
  }

  lemma ReadFolder(f: string, word: string, x: string)
    requires ValidUuid(f) && ValidUuid(x) && word != "document" && word != "canvas"
    ensures DecodeParts(["s3rn", "relay", "folder", f, word, x]) == Ok(Folder(Some(f)))
  {
  }

  /** And a blob without a hash as its file. */
  lemma HashlessBlobIsRead(e: Entity)
    requires Encode(e).Ok? && e.RemoteBlob? && !HasHash(e)
    ensures Decode(Encode(e).value) == Ok(RemoteFile(e.relay, e.folder, e.file))
  {
    PlainIsRead(e);
    BlobIsFile(e);
    RemoteSegments(RemoteFile(e.relay, e.folder, e.file));
    ReadFile(e.relay.value, e.folder.value, e.file.value);
  }

  lemma BlobIsFile(e: Entity)
    requires Encodable(e) && e.RemoteBlob? && !HasHash(e)
    ensures Segments(e) == Segments(RemoteFile(e.relay, e.folder, e.file))
  {
  }

  lemma ReadFile(r: string, f: string, x: string)
    requires ValidUuid(r) && ValidUuid(f) && ValidUuid(x)
    ensures DecodeParts(["s3rn", "relay", "relay", r, "folder", f, "file", x])
         == Ok(RemoteFile(Some(r), Some(f), Some(x)))
  {
  }

  // ----- compound ids -----

  const DASH := '-'

  function ResourceId(e: Entity): Field {
    match e
    case RemoteFolder(_, folder) => folder
    case RemoteDocument(_, _, document) => document
    case RemoteCanvas(_, _, canvas) => canvas
    case RemoteFile(_, _, file) => file
    case _ => None
  }

  function CompoundId(e: Entity): Result<string> {
    if e.RemoteFolder? || e.RemoteDocument? || e.RemoteCanvas? || e.RemoteFile? then
      Ok(Show(e.relay) + [DASH] + Show(ResourceId(e)))
    else Err
  }

  function ExtractRelayId(id: string): Result<string> {
    var parts := Split(id, DASH);
    if |parts| < 10 then Err else Ok(Join(parts[..5], DASH))
  }

  function ExtractDocumentId(id: string): Result<string> {
    var parts := Split(id, DASH);
    if |parts| < 10 then Err else Ok(Join(parts[|parts| - 5..], DASH))
  }

  function FolderFromCompoundId(id: string): Result<Entity> {
    var parts := Split(id, DASH);
    if |parts| < 10 || |parts| % 5 != 0 then Err
    else Ok(RemoteFolder(Some(Join(parts[..5], DASH)), Some(Join(parts[|parts| - 5..], DASH))))
  }

  lemma HexRun(s: string, lo: nat, hi: nat)
    requires ValidUuid(s) && lo <= hi <= |s|
    requires forall i :: lo <= i < hi ==> !IsDashAt(i)
    ensures DASH !in s[lo..hi]
  {
    forall i | lo <= i < hi
      ensures s[i] != DASH
    {
      UuidChar(s, i);
    }
  }

  lemma Prepend(s: string, lo: nat, hi: nat, rest: seq<string>)
    requires lo <= hi < |s| && s[hi] == DASH && rest != [] && Join(rest, DASH) == s[hi + 1..]
    ensures Join([s[lo..hi]] + rest, DASH) == s[lo..]
  {
    assert ([s[lo..hi]] + rest)[1..] == rest;
  }

  lemma UuidHasFiveParts(s: string)
    requires ValidUuid(s)
    ensures |Split(s, DASH)| == 5
  {
    UuidChar(s, 8); UuidChar(s, 13); UuidChar(s, 18); UuidChar(s, 23);
    HexRun(s, 0, 8); HexRun(s, 9, 13); HexRun(s, 14, 18); HexRun(s, 19, 23); HexRun(s, 24, |s|);
    var one := [s[24..|s|]];
    var two := [s[19..23]] + one;
    var three := [s[14..18]] + two;
    var four := [s[9..13]] + three;
    var five := [s[0..8]] + four;
    assert Join(one, DASH) == s[24..];
    Prepend(s, 19, 23, one);
    Prepend(s, 14, 18, two);
    Prepend(s, 9, 13, three);
    Prepend(s, 0, 8, four);
    SplitJoin(five, DASH);
  }

  ghost predicate AllValid(ids: seq<string>) {
    forall i :: 0 <= i < |ids| ==> ValidUuid(ids[i])
  }

  lemma {:induction false} ChainCount(ids: seq<string>)
    requires ids != [] && AllValid(ids)
    ensures |Split(Join(ids, DASH), DASH)| == 5 * |ids|
  {
    UuidHasFiveParts(ids[0]);
    if |ids| > 1 {
      ChainCount(ids[1..]);
      SplitConcat(ids[0], Join(ids[1..], DASH), DASH);
    }
  }

  lemma FirstFive(ids: seq<string>)
    requires |ids| >= 2 && ValidUuid(ids[0])
    ensures var parts := Split(Join(ids, DASH), DASH); |parts| >= 5 && Join(parts[..5], DASH) == ids[0]
  {
    UuidHasFiveParts(ids[0]);
    SplitConcat(ids[0], Join(ids[1..], DASH), DASH);
    assert Split(Join(ids, DASH), DASH)[..5] == Split(ids[0], DASH);
    JoinSplit(ids[0], DASH);
  }

  lemma LastFive(ids: seq<string>)
    requires |ids| >= 2 && ValidUuid(ids[|ids| - 1])
    ensures var parts := Split(Join(ids, DASH), DASH);
            |parts| >= 5 && Join(parts[|parts| - 5..], DASH) == ids[|ids| - 1]
  {
    var front, last := ids[..|ids| - 1], ids[|ids| - 1];
    assert front + [last] == ids;
    JoinConcat(front, [last], DASH);
    UuidHasFiveParts(last);
    SplitConcat(Join(front, DASH), last, DASH);
    var parts := Split(Join(ids, DASH), DASH);
    assert parts[|parts| - 5..] == Split(last, DASH);
    JoinSplit(last, DASH);
  }

  lemma RelayOfChain(ids: seq<string>)
    requires |ids| >= 2 && AllValid(ids)
    ensures ExtractRelayId(Join(ids, DASH)) == Ok(ids[0])
  {
    ChainCount(ids);
    FirstFive(ids);
  }

  lemma DocumentOfChain(ids: seq<string>)
    requires |ids| >= 2 && AllValid(ids)
    ensures ExtractDocumentId(Join(ids, DASH)) == Ok(ids[|ids| - 1])
  {
    ChainCount(ids);
    LastFive(ids);
  }

  lemma FolderOfChain(ids: seq<string>)
    requires |ids| >= 2 && AllValid(ids)
    ensures FolderFromCompoundId(Join(ids, DASH)) == Ok(RemoteFolder(Some(ids[0]), Some(ids[|ids| - 1])))
  {
    ChainCount(ids);
    RelayOfChain(ids);
    DocumentOfChain(ids);
    FolderOfEnds(Join(ids, DASH), |ids|);
  }

  lemma FolderOfEnds(id: string, n: nat)
    requires n >= 2 && |Split(id, DASH)| == 5 * n
    ensures ExtractRelayId(id).Ok? && ExtractDocumentId(id).Ok?
    ensures FolderFromCompoundId(id)
         == Ok(RemoteFolder(Some(ExtractRelayId(id).value), Some(ExtractDocumentId(id).value)))
  {
  }

  /** However many UUIDs stand between, the first and the last one are found again. */
  lemma ChainEnds(ids: seq<string>)
    requires |ids| >= 2 && AllValid(ids)
    ensures ExtractRelayId(Join(ids, DASH)) == Ok(ids[0])
    ensures ExtractDocumentId(Join(ids, DASH)) == Ok(ids[|ids| - 1])
    ensures FolderFromCompoundId(Join(ids, DASH)) == Ok(RemoteFolder(Some(ids[0]), Some(ids[|ids| - 1])))
  {
    RelayOfChain(ids);
    DocumentOfChain(ids);
    FolderOfChain(ids);
  }

  /** Two UUIDs have nine dashes between them all; a folder is found in a whole number of UUIDs only. */
  lemma ExtractedIff(id: string)
    ensures ExtractRelayId(id).Ok? <==> Occurrences(id, '-') >= 9
    ensures ExtractDocumentId(id).Ok? <==> Occurrences(id, '-') >= 9
    ensures FolderFromCompoundId(id).Ok? <==> Occurrences(id, '-') >= 9 && Occurrences(id, '-') % 5 == 4
  {
    SplitLength(id, '-');
  }

  /** A compound id splits back into the relay and the resource it was made from. */
  lemma CompoundRoundTrip(e: Entity)
    requires Encode(e).Ok? && CompoundId(e).Ok?
    ensures var id := CompoundId(e).value;
            ExtractRelayId(id) == Ok(e.relay.value) && ExtractDocumentId(id) == Ok(ResourceId(e).value)
  {
    var ids := [e.relay.value, ResourceId(e).value];
    assert Join(ids[1..], DASH) == ids[1];
    ChainEnds(ids);
  }

  // ----- subdoc guids -----

  function SubdocGuid(relayId: string, resourceId: string): string {
    if relayId + [DASH] <= resourceId then resourceId else relayId + [DASH] + resourceId
  }

  /** The guid of a resource names it again, and making it a guid twice changes nothing. */
  lemma SubdocGuidRoundTrip(relayId: string, resourceId: string)
    requires ValidUuid(relayId) && ValidUuid(resourceId)
    ensures var guid := SubdocGuid(relayId, resourceId);
            && ExtractDocumentId(guid) == Ok(resourceId) && ExtractRelayId(guid) == Ok(relayId)
            && SubdocGuid(relayId, guid) == guid
  {
    var ids := [relayId, resourceId];
    assert Join(ids[1..], DASH) == resourceId;
    assert !(relayId + [DASH] <= resourceId) by {
      assert (relayId + [DASH])[|relayId|] == DASH;
    }
    ChainEnds(ids);
  }
}
