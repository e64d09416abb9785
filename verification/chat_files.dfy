/**
 * The file helpers of the chat client (`src/modules/aiChat/utils.ts`): turning a
 * browser `File` into a base64 content block for the provider, and turning a
 * media URL back into a `File`.
 *
 * The `FileReader`, the content-block schema and `fetch` are outside the model;
 * they enter as function parameters (`Codecs` and `fetchBlob`).
 */
module ChatFiles {
  import opened Wrappers
  import opened Strings
  import opened Seqs

  newtype byte = x: int | 0 <= x < 256

  /** A browser `File`: its name, its `type` (a MIME string) and its bytes. */
  datatype File = File(name: string, mimeType: string, bytes: seq<byte>)

  /** A base64 content source: its type tag, MIME type and data. */
  datatype Base64Source = Base64Source(sourceType: string, mediaType: string, data: string)

  /** An item of a provider message's `content`. */
  datatype ContentBlock =
    | TextBlock(text: string)
    | FileBlock(kind: string, source: Base64Source)

  /** How `readAsDataURL` ends: `onerror`, or `onloadend` with `reader.result`
      (which may be `null`). */
  datatype ReadOutcome = ReaderError | Loaded(result: Option<string>)

  /** A settled conversion: the promise rejected, or it resolved to a failed or
      a successful `safeParse`. */
  datatype Conversion<T> = Rejected | Failed | Succeeded(value: T)

  /** What the conversions consult outside the model: the `FileReader`, and
      the provider's content-block schema. */
  datatype Codecs = Codecs(readDataUrl: File -> ReadOutcome, acceptsBlock: ContentBlock -> bool)

  const Base64Marker: string := ";base64,"

  /** A data URL as `FileReader.readAsDataURL` writes it for base64 content
      (section 3 of RFC 2397). */
  function DataUrl(mimeType: string, data: string): string {
    "data:" + mimeType + Base64Marker + data
  }

  // ---------------------------------------------------------------------------
  // convertFileToBase64

  /** The base64 payload of a data URL: the text after the first `;base64,`
      up to any later one, when the marker occurs. */
  function Base64Payload(dataUrl: string): (r: Option<string>)
    ensures r.None? <==> !Occurs(dataUrl, Base64Marker)
  {
    SplitSingleIff(dataUrl, Base64Marker);
    var parts := Split(dataUrl, Base64Marker);
    if |parts| >= 2 then Some(parts[1]) else None
  }

  /** The payload of a well-formed data URL is exactly its data: neither a MIME
      type without parameters nor the base64 alphabet (section 4 of RFC 4648)
      contains ';'. */
  lemma Base64PayloadOfDataUrl(mimeType: string, data: string)
    requires ';' !in mimeType && ';' !in data
    ensures Base64Payload(DataUrl(mimeType, data)) == Some(data)
  {
    var prefix := "data:" + mimeType;
    assert ';' !in prefix;
    assert DataUrl(mimeType, data) == prefix + (Base64Marker + data);
    SplitPrefixFree(prefix, Base64Marker + data, Base64Marker);
    SplitAfterSeparator(data, Base64Marker);
    SplitWithoutSeparator(data, Base64Marker);
  }

  /** `convertFileToBase64`: a reader error rejects; a `null` result reads as
      the empty string, which has no payload. */
  function FileToBase64(file: File, codecs: Codecs): (r: Conversion<string>)
    ensures r.Rejected? <==> codecs.readDataUrl(file).ReaderError?
    ensures r.Succeeded? <==>
              codecs.readDataUrl(file).Loaded? &&
              Occurs(codecs.readDataUrl(file).result.GetOr(""), Base64Marker)
  {
    match codecs.readDataUrl(file)
    case ReaderError => Rejected
    case Loaded(result) =>
      match Base64Payload(result.GetOr(""))
      case Some(data) => Succeeded(data)
      case None => Failed
  }

  /** A reader that produces a proper data URL yields its base64 data. */
  lemma FileToBase64OfDataUrl(file: File, codecs: Codecs, data: string)
    requires codecs.readDataUrl(file) == Loaded(Some(DataUrl(file.mimeType, data)))
    requires ';' !in file.mimeType && ';' !in data
    ensures FileToBase64(file, codecs) == Succeeded(data)
  {
    Base64PayloadOfDataUrl(file.mimeType, data);
  }

  // ---------------------------------------------------------------------------
  // convertFileToFileDetails

  /** The block `type`: "document" for exactly "application/pdf", otherwise
      the text before the first '/'. */
  function ContentKind(mimeType: string): string {
    if mimeType == "application/pdf" then "document" else Split(mimeType, "/")[0]
  }

  /** For any other `type/subtype` (section 5.1 of RFC 2045) the kind is the
      top-level type. */
  lemma ContentKindTopLevel(top: string, sub: string)
    requires '/' !in top && top + "/" + sub != "application/pdf"
    ensures ContentKind(top + "/" + sub) == top
  {
    assert top + "/" + sub == top + ("/" + sub);
    SplitPrefixFree(top, "/" + sub, "/");
    SplitAfterSeparator(sub, "/");
  }

  /** A string without '/' is its own kind (unless it were "application/pdf",
      which has one). */
  lemma ContentKindWithoutSlash(mimeType: string)
    requires '/' !in mimeType
    ensures ContentKind(mimeType) == mimeType
  {
    assert mimeType != "application/pdf" by {
      assert "application/pdf"[11] == '/';
    }
    SplitWithoutSeparator(mimeType, "/");
  }

  /** The block built for a file and its base64 data. */
  function FileBlockFor(file: File, data: string): ContentBlock {
    FileBlock(ContentKind(file.mimeType), Base64Source("base64", file.mimeType, data))
  }

  /** `convertFileToFileDetails`: a failed base64 conversion is returned as is;
      otherwise the block is built and checked against the schema. */
  function FileDetails(file: File, codecs: Codecs): (r: Conversion<ContentBlock>)
    ensures r.Rejected? <==> FileToBase64(file, codecs).Rejected?
    ensures r.Succeeded? <==>
              FileToBase64(file, codecs).Succeeded? &&
              codecs.acceptsBlock(FileBlockFor(file, FileToBase64(file, codecs).value))
    ensures r.Succeeded? ==>
              r.value.FileBlock? &&
              r.value.source == Base64Source("base64", file.mimeType, FileToBase64(file, codecs).value) &&
              r.value.kind == ContentKind(file.mimeType)
  {
    match FileToBase64(file, codecs)
    case Rejected => Rejected
    case Failed => Failed
    case Succeeded(data) =>
      var block := FileBlockFor(file, data);
      if codecs.acceptsBlock(block) then Succeeded(block) else Failed
  }

  /** A failed base64 conversion short-circuits: the schema is never
      consulted, so any schema gives the same failure. */
  lemma FailedBase64SkipsSchema(file: File, c1: Codecs, c2: Codecs)
    requires c1.readDataUrl == c2.readDataUrl
    requires FileToBase64(file, c1).Failed?
    ensures FileDetails(file, c1) == Failed && FileDetails(file, c2) == Failed
  {
  }

  // ---------------------------------------------------------------------------
  // convertFilesToFileDetails

  /** A batch of conversions awaited together, keeping the successful values in
      order: `None` when any conversion rejects (the whole batch rejects). */
  function Collect<T>(cs: seq<Conversion<T>>): (r: Option<seq<T>>)
    ensures r.Some? ==> |r.value| <= |cs|
    decreases |cs|
  {
    if |cs| == 0 then Some([])
    else
      var tail := Collect(cs[1..]);
      if cs[0].Rejected? || tail.None? then None
      else Some((if cs[0].Succeeded? then [cs[0].value] else []) + tail.value)
  }

  /** The batch rejects exactly when some conversion rejects. */
  lemma {:induction false} CollectRejects<T>(cs: seq<Conversion<T>>)
    ensures Collect(cs).None? <==> exists i :: 0 <= i < |cs| && cs[i].Rejected?
    decreases |cs|
  {
    if |cs| > 0 {
      CollectRejects(cs[1..]);
      if exists i :: 0 <= i < |cs[1..]| && cs[1..][i].Rejected? {
        var i :| 0 <= i < |cs[1..]| && cs[1..][i].Rejected?;
        assert cs[i + 1].Rejected?;
      }
      if exists i :: 0 <= i < |cs| && cs[i].Rejected? {
        var i :| 0 <= i < |cs| && cs[i].Rejected?;
        if i > 0 {
          assert cs[1..][i - 1].Rejected?;
        }
      }
    }
  }

  predicate IsSucceeded<T>(c: Conversion<T>) {
    c.Succeeded?
  }

  function SucceededValue<T>(c: Conversion<T>): T
    requires c.Succeeded?
  {
    c.value
  }

  /** The source's pipeline written as it stands:
      `.filter(x => x.success).map(x => x.data)`. */
  function SuccessesPipeline<T>(cs: seq<Conversion<T>>): seq<T> {
    var kept := Filter(IsSucceeded, cs);
    seq(|kept|, i requires 0 <= i < |kept| => SucceededValue(kept[i]))
  }

  /** When nothing rejects, the batch is exactly the filter/map pipeline: the
      successful conversions, in input order. */
  lemma {:induction false} CollectIsPipeline<T>(cs: seq<Conversion<T>>)
    requires forall i :: 0 <= i < |cs| ==> !cs[i].Rejected?
    ensures Collect(cs) == Some(SuccessesPipeline(cs))
    decreases |cs|
  {
    if |cs| > 0 {
      var rest := cs[1..];
      assert forall i :: 0 <= i < |rest| ==> !rest[i].Rejected? by {
        forall i | 0 <= i < |rest| ensures !rest[i].Rejected? {
          assert rest[i] == cs[i + 1];
        }
      }
      CollectIsPipeline(rest);
      var keptRest := Filter(IsSucceeded, rest);
      var kept := Filter(IsSucceeded, cs);
      assert kept == (if cs[0].Succeeded? then [cs[0]] else []) + keptRest;
      var head: seq<T> := if cs[0].Succeeded? then [cs[0].value] else [];
      var whole := SuccessesPipeline(cs);
      var tail := SuccessesPipeline(rest);
      assert |whole| == |head| + |tail|;
      forall i | 0 <= i < |whole| ensures whole[i] == (head + tail)[i] {
        if cs[0].Succeeded? && i > 0 {
          assert kept[i] == keptRest[i - 1];
        } else if !cs[0].Succeeded? {
          assert kept[i] == keptRest[i];
        }
      }
      assert whole == head + tail;
    }
  }

  /** Failures are dropped without aborting the batch; when every conversion
      succeeds, the batch has one value per conversion, in order. */
  lemma {:induction false} CollectAllSucceed<T>(cs: seq<Conversion<T>>)
    requires forall i :: 0 <= i < |cs| ==> cs[i].Succeeded?
    ensures Collect(cs).Some? && |Collect(cs).value| == |cs|
    ensures forall i :: 0 <= i < |cs| ==> Collect(cs).value[i] == cs[i].value
    decreases |cs|
  {
    if |cs| > 0 {
      var rest := cs[1..];
      assert forall i :: 0 <= i < |rest| ==> rest[i] == cs[i + 1];
      CollectAllSucceed(rest);
      var r := Collect(cs).value;
      assert r == [cs[0].value] + Collect(rest).value;
      forall i | 0 <= i < |cs| ensures r[i] == cs[i].value {
        if i > 0 {
          assert r[i] == Collect(rest).value[i - 1];
        }
      }
    }
  }

  /** The batch of a concatenation is the concatenation of the batches. */
  lemma {:induction false} CollectConcat<T>(a: seq<Conversion<T>>, b: seq<Conversion<T>>)
    requires Collect(a).Some? && Collect(b).Some?
    ensures Collect(a + b) == Some(Collect(a).value + Collect(b).value)
    decreases |a|
  {
    if |a| == 0 {
      assert a + b == b;
      assert Collect(a).value == [];
      assert [] + Collect(b).value == Collect(b).value;
    } else {
      assert (a + b)[0] == a[0];
      assert (a + b)[1..] == a[1..] + b;
      CollectConcat(a[1..], b);
      var head: seq<T> := if a[0].Succeeded? then [a[0].value] else [];
      var ta, tb := Collect(a[1..]).value, Collect(b).value;
      assert Collect(a).value == head + ta;
      assert Collect(a + b).value == head + (ta + tb);
      assert head + (ta + tb) == (head + ta) + tb;
    }
  }

  function DetailsWith(codecs: Codecs): File -> Conversion<ContentBlock> {
    (f: File) => FileDetails(f, codecs)
  }

  /** `convertFilesToFileDetails`: every block produced is a file block. */
  function FilesToDetails(files: seq<File>, codecs: Codecs): (r: Option<seq<ContentBlock>>)
    ensures r.Some? ==> |r.value| <= |files|
    ensures r.Some? ==> forall i :: 0 <= i < |r.value| ==> r.value[i].FileBlock?
  {
    var cs := Map(DetailsWith(codecs), files);
    CollectFileBlocks(cs);
    Collect(cs)
  }

  /** Every value collected from conversions of files is a file block. */
  lemma {:induction false} CollectFileBlocks(cs: seq<Conversion<ContentBlock>>)
    requires forall i :: 0 <= i < |cs| ==> cs[i].Succeeded? ==> cs[i].value.FileBlock?
    ensures Collect(cs).Some? ==> forall i :: 0 <= i < |Collect(cs).value| ==> Collect(cs).value[i].FileBlock?
    decreases |cs|
  {
    if |cs| > 0 {
      var rest := cs[1..];
      assert forall i :: 0 <= i < |rest| ==> rest[i] == cs[i + 1];
      CollectFileBlocks(rest);
    }
  }

  /** The file batch rejects exactly when reading some file fails. */
  lemma FilesToDetailsRejects(files: seq<File>, codecs: Codecs)
    ensures FilesToDetails(files, codecs).None? <==>
              exists i :: 0 <= i < |files| && codecs.readDataUrl(files[i]).ReaderError?
  {
    var cs := Map(DetailsWith(codecs), files);
    CollectRejects(cs);
    if exists i :: 0 <= i < |files| && codecs.readDataUrl(files[i]).ReaderError? {
      var i :| 0 <= i < |files| && codecs.readDataUrl(files[i]).ReaderError?;
      assert cs[i].Rejected?;
    }
  }

  /** When no read fails, the file batch is the source's pipeline over
      `files.map(convertFileToFileDetails)`. */
  lemma FilesToDetailsIsPipeline(files: seq<File>, codecs: Codecs)
    requires forall i :: 0 <= i < |files| ==> !codecs.readDataUrl(files[i]).ReaderError?
    ensures FilesToDetails(files, codecs) == Some(SuccessesPipeline(Map(DetailsWith(codecs), files)))
  {
    var cs := Map(DetailsWith(codecs), files);
    assert forall i :: 0 <= i < |cs| ==> !cs[i].Rejected?;
    CollectIsPipeline(cs);
  }

  /** With every file converting, one block per file, in order. */
  lemma FilesToDetailsAllSucceed(files: seq<File>, codecs: Codecs)
    requires forall i :: 0 <= i < |files| ==> FileDetails(files[i], codecs).Succeeded?
    ensures FilesToDetails(files, codecs).Some?
    ensures |FilesToDetails(files, codecs).value| == |files|
    ensures forall i :: 0 <= i < |files| ==>
              FilesToDetails(files, codecs).value[i] == FileDetails(files[i], codecs).value
  {
    CollectAllSucceed(Map(DetailsWith(codecs), files));
  }

  /** The files of a concatenation convert to the concatenated batches. */
  lemma FilesToDetailsConcat(a: seq<File>, b: seq<File>, codecs: Codecs)
    requires FilesToDetails(a, codecs).Some? && FilesToDetails(b, codecs).Some?
    ensures FilesToDetails(a + b, codecs) ==
              Some(FilesToDetails(a, codecs).value + FilesToDetails(b, codecs).value)
  {
    MapConcat(DetailsWith(codecs), a, b);
    CollectConcat(Map(DetailsWith(codecs), a), Map(DetailsWith(codecs), b));
  }

  // ---------------------------------------------------------------------------
  // FILE_TYPE_MAP and createFileFromMediaUrl

  const FileTypeTable: map<string, string> := map[
    "png" := "image/png",
    "jpg" := "image/jpeg",
    "jpeg" := "image/jpeg",
    "gif" := "image/gif",
    "pdf" := "application/pdf"
  ]

  const DefaultFileType: string := "image/png"

  /** The MIME type for an extension: the table's entry, or `image/png` for an
      extension the table does not list. */
  function FileTypeFor(ext: string): (r: string)
    ensures r in {"image/png", "image/jpeg", "image/gif", "application/pdf"}
    ensures ext !in {"png", "jpg", "jpeg", "gif", "pdf"} ==> r == DefaultFileType
  {
    if ext in FileTypeTable then FileTypeTable[ext] else DefaultFileType
  }

  /** The names `Object.prototype` provides to every object literal. */
  const ObjectPrototypeMembers: set<string> := {
    "constructor", "hasOwnProperty", "isPrototypeOf", "propertyIsEnumerable",
    "toString", "toLocaleString", "valueOf", "__proto__", "__defineGetter__",
    "__defineSetter__", "__lookupGetter__", "__lookupSetter__"
  }

  /** What an indexed read of a JavaScript object literal can produce. */
  datatype LookupValue = MimeString(mime: string) | PrototypeMember(member: string)

  /** The extension lookup as JavaScript evaluates it on an object literal: a key
      the table lacks falls through to `Object.prototype`, whose members are
      not nullish, so `??` keeps them. */
  function FileTypeAsWritten(ext: string): (r: LookupValue)
    ensures ext in ObjectPrototypeMembers <==> r.PrototypeMember?
  {
    if ext in FileTypeTable then MimeString(FileTypeTable[ext])
    else if ext in ObjectPrototypeMembers then PrototypeMember(ext)
    else MimeString(DefaultFileType)
  }

  /** A media URL ending in ".constructor" gets a function, not a MIME type. */
  lemma FileTypeAsWrittenConstructor()
    ensures FileTypeAsWritten("constructor") == PrototypeMember("constructor")
    ensures !FileTypeAsWritten("constructor").MimeString?
  {
  }

  /** Away from the prototype's names the lookup as written and the own-key
      lookup agree. */
  lemma FileTypeAgreesOffPrototype(ext: string)
    requires ext !in ObjectPrototypeMembers
    ensures FileTypeAsWritten(ext) == MimeString(FileTypeFor(ext))
  {
  }

  /** `createFileFromMediaUrl`: the name is the last '/' piece of the URL, the
      extension the last '.' piece of the name; a failed fetch (caught) is
      `None`. */
  function FileFromMediaUrl(url: string, fetchBlob: string -> Option<seq<byte>>): (r: Option<File>)
    ensures r.Some? <==> fetchBlob(url).Some?
    ensures r.Some? ==> r.value.bytes == fetchBlob(url).value
  {
    var fileName := LastSegment(url, '/');
    var fileExtension := LastSegment(fileName, '.');
    var fileType := FileTypeFor(fileExtension);
    match fetchBlob(url)
    case None => None
    case Some(blob) => Some(File(fileName, fileType, blob))
  }

  /** A URL `prefix/name.ext`: the file is called `name.ext` and typed by `ext`. */
  lemma FileFromMediaUrlNamed(prefix: string, base: string, ext: string,
                              fetchBlob: string -> Option<seq<byte>>)
    requires '/' !in base + "." + ext && '.' !in ext
    requires fetchBlob(prefix + "/" + base + "." + ext).Some?
    ensures var r := FileFromMediaUrl(prefix + "/" + base + "." + ext, fetchBlob);
            r.Some? && r.value.name == base + "." + ext && r.value.mimeType == FileTypeFor(ext)
  {
    var name := base + "." + ext;
    assert prefix + "/" + base + "." + ext == prefix + ['/'] + name;
    LastSegmentAfter(prefix, '/', name);
    assert name == base + ['.'] + ext;
    LastSegmentAfter(base, '.', ext);
  }

  /** A name without '.' is its own extension. */
  lemma FileFromMediaUrlNoDot(prefix: string, name: string,
                              fetchBlob: string -> Option<seq<byte>>)
    requires '/' !in name && '.' !in name
    requires fetchBlob(prefix + "/" + name).Some?
    ensures var r := FileFromMediaUrl(prefix + "/" + name, fetchBlob);
            r.Some? && r.value.name == name && r.value.mimeType == FileTypeFor(name)
  {
    assert prefix + "/" + name == prefix + ['/'] + name;
    LastSegmentAfter(prefix, '/', name);
    LastSegmentWhole(name, '.');
  }
}
