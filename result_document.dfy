/** A search hit: a read-only view over one stored index document, which is
    either a file or an email, with a few derived values cached on first use. */
module ResultDocuments {
  import opened Common

  /** The stored fields a result document reads. */
  datatype Field =
    | Uid | Title | Subject | Size | Parser | Filename | Sender
    | Type | Author | LastModified | Date

  /** A stored index document: each field holds zero or more string values. */
  type StoredDocument = map<Field, seq<string>>

  /** The first value of a field, or `None` where the index returns null. */
  function Get(doc: StoredDocument, f: Field): (r: Option<string>)
    ensures r.Some? <==> f in doc && |doc[f]| > 0
    ensures r.Some? ==> r.value == doc[f][0]
  {
    if f in doc && |doc[f]| > 0 then Some(doc[f][0]) else None
  }

  /** All values of a field, empty when the field is absent. */
  function GetValues(doc: StoredDocument, f: Field): seq<string>
  {
    if f in doc then doc[f] else []
  }

  /** Why an accessor fails. `Unsupported` is the exception thrown by a
      file-only accessor on an email and by an email-only accessor on a file;
      `NumberFormat` a stored number that does not parse; `NullValue` a
      missing value the accessor dereferences. */
  datatype DocError = Unsupported | NumberFormat | NullValue

  /** The helpers that interpret a document's uid and path. Their code is
      not part of this model, so a document is built with them as values. */
  datatype Externals = Externals(
    isEmailType: string -> bool,
    extractPath: string -> string,
    splitPathLast: string -> (string, string),
    splitFilename: string -> (string, string))

  /** The kinds of accessor that are valid for one kind of document only. */
  datatype Accessor =
    | FilenameOf | LastModifiedOf | TextOf | PdfPagesOf | FileResourceOf
    | SenderOf | DateOf | MailResourceOf

  predicate FileOnly(a: Accessor)
  {
    a.FilenameOf? || a.LastModifiedOf? || a.TextOf? || a.PdfPagesOf? || a.FileResourceOf?
  }

  class ResultDocument {
    const stored: StoredDocument
    const ext: Externals
    const uid: string
    /** Whether the document is an email; fixed when the document is built. */
    const isEmail: bool

    // Caches, empty until the matching getter first runs.
    var path: Option<string>
    var parentPath: Option<string>
    var sizeInKB: int
    var parserName: Option<string>

    /** Every cache that is filled holds the value it caches. */
    ghost predicate Valid()
      reads this
    {
      && (path.Some? ==> path.value == Path())
      && (parentPath.Some? ==> parentPath.value == ParentPath())
      && (sizeInKB >= 0 ==> HasSize() && sizeInKB == SizeInKB())
      && (parserName.Some? ==> parserName == ParserName())
    }

    constructor (stored: StoredDocument, ext: Externals)
      requires Get(stored, Uid).Some?
      ensures this.stored == stored && this.ext == ext
      ensures uid == Get(stored, Uid).value && isEmail == ext.isEmailType(uid)
      ensures path.None? && parentPath.None? && sizeInKB == -1 && parserName.None?
      ensures Valid()
    {
      var id := Get(stored, Uid).value;
      this.stored := stored;
      this.ext := ext;
      uid := id;
      isEmail := ext.isEmailType(id);
      path, parentPath, sizeInKB, parserName := None, None, -1, None;
    }

    // -------------------------------------------------------------------
    // The values the caches hold
    // -------------------------------------------------------------------

    function Path(): string
    {
      ext.extractPath(uid)
    }

    function ParentPath(): string
    {
      ext.splitPathLast(Path()).0
    }

    function SizeInBytes(): Option<int>
    {
      match Get(stored, Size)
      case None => None
      case Some(text) => ParseLong(text)
    }

    /** Whether the stored size parses as a `long`. */
    predicate HasSize()
    {
      SizeInBytes().Some?
    }

    function SizeInKB(): int
      requires HasSize()
    {
      KiloBytes(SizeInBytes().value)
    }

    function ParserName(): Option<string>
    {
      Get(stored, Parser)
    }

    // -------------------------------------------------------------------
    // Memoising getters
    // -------------------------------------------------------------------

    /** A size that does not parse fails as `Long.valueOf` does and leaves
        the cache empty; a computed size is cached, and a negative one is
        computed again on the next call. */
    method GetSizeInKB() returns (kb: Result<int, DocError>)
      requires Valid()
      modifies this`sizeInKB
      ensures Valid()
      ensures kb == if HasSize() then Success(SizeInKB()) else Failure(NumberFormat)
      ensures sizeInKB == if old(sizeInKB) < 0 && HasSize() then SizeInKB() else old(sizeInKB)
    {
      if sizeInKB < 0 {
        match SizeInBytes()
        case None =>
          return Failure(NumberFormat);
        case Some(bytes) =>
          var extra := if JavaRem(bytes, 1024) == 0 then 0 else 1;
          sizeInKB := JavaDiv(bytes, 1024) + extra;
      }
      kb := Success(sizeInKB);
    }

    method GetParserName() returns (name: Option<string>)
      requires Valid()
      modifies this`parserName
      ensures Valid()
      ensures name == ParserName() && parserName == name
    {
      if parserName.None? {
        parserName := Get(stored, Parser);
      }
      name := parserName;
    }

    method GetPath() returns (p: string)
      requires Valid()
      modifies this`path
      ensures Valid()
      ensures p == Path() && path == Some(p)
    {
      if path.None? {
        path := Some(ext.extractPath(uid));
      }
      p := path.value;
    }

    method GetParentPath() returns (p: string)
      requires Valid()
      modifies this`path, this`parentPath
      ensures Valid()
      ensures p == ParentPath() && parentPath == Some(p)
      ensures path == if old(parentPath).None? then Some(Path()) else old(path)
    {
      if parentPath.None? {
        var full := GetPath();
        parentPath := Some(ext.splitPathLast(full).0);
      }
      p := parentPath.value;
    }

    // -------------------------------------------------------------------
    // Accessors over the immutable fields
    // -------------------------------------------------------------------

    /** The guard in front of every accessor: a file-only accessor fails on
        an email and an email-only accessor fails on a file. */
    function Guard(a: Accessor): (r: Option<DocError>)
      ensures r.Some? <==> (FileOnly(a) == isEmail)
      ensures r.Some? ==> r.value == Unsupported
    {
      if FileOnly(a) == isEmail then Some(Unsupported) else None
    }

    function GetFilename(): (r: Result<Option<string>, DocError>)
      ensures r.Failure? <==> isEmail
      ensures r.Failure? ==> r.error == Unsupported
      ensures r.Success? ==> r.value == Get(stored, Filename)
    {
      match Guard(FilenameOf)
      case Some(e) => Failure(e)
      case None => Success(Get(stored, Filename))
    }

    function GetSender(): (r: Result<Option<string>, DocError>)
      ensures r.Failure? <==> !isEmail
      ensures r.Failure? ==> r.error == Unsupported
      ensures r.Success? ==> r.value == Get(stored, Sender)
    {
      match Guard(SenderOf)
      case Some(e) => Failure(e)
      case None => Success(Get(stored, Sender))
    }

    /** A stored timestamp in milliseconds, read as a `long`. */
    function StoredMillis(f: Field): Result<int, DocError>
    {
      match Get(stored, f)
      case None => Failure(NumberFormat)
      case Some(text) =>
        match ParseLong(text)
        case None => Failure(NumberFormat)
        case Some(ms) => Success(ms)
    }

    function GetLastModified(): (r: Result<int, DocError>)
      ensures isEmail ==> r == Failure(Unsupported)
      ensures !isEmail ==> r.Success? == (Get(stored, LastModified).Some? &&
                                           ParseLong(Get(stored, LastModified).value).Some?)
      ensures r.Success? ==> !isEmail && Some(r.value) == ParseLong(Get(stored, LastModified).value)
    {
      match Guard(LastModifiedOf)
      case Some(e) => Failure(e)
      case None => StoredMillis(LastModified)
    }

    function GetDate(): (r: Result<int, DocError>)
      ensures !isEmail ==> r == Failure(Unsupported)
      ensures isEmail ==> r.Success? == (Get(stored, Date).Some? &&
                                          ParseLong(Get(stored, Date).value).Some?)
      ensures r.Success? ==> isEmail && Some(r.value) == ParseLong(Get(stored, Date).value)
    {
      match Guard(DateOf)
      case Some(e) => Failure(e)
      case None => StoredMillis(Date)
    }

    /** The path a file resource is created for; reading a file's text or
        its PDF pages goes through the same guard and the same path. */
    function FileResourcePath(): (r: Result<string, DocError>)
      ensures r.Failure? <==> isEmail
      ensures r.Success? ==> r.value == Path()
    {
      match Guard(FileResourceOf)
      case Some(e) => Failure(e)
      case None => Success(ext.extractPath(uid))
    }

    /** The parser name and path handed to text extraction. */
    function TextSource(): (r: Result<(Option<string>, string), DocError>)
      ensures r.Failure? <==> isEmail
      ensures r.Success? ==> r.value == (ParserName(), Path())
    {
      match Guard(TextOf)
      case Some(e) => Failure(e)
      case None =>
        match FileResourcePath()
        case Failure(e) => Failure(e)
        case Success(p) => Success((Get(stored, Parser), p))
    }

    /** The path whose PDF pages are read. */
    function PdfPagesSource(): (r: Result<string, DocError>)
      ensures r.Failure? <==> isEmail
      ensures r.Success? ==> r.value == Path()
    {
      match Guard(PdfPagesOf)
      case Some(e) => Failure(e)
      case None => FileResourcePath()
    }

    /** The path an email is loaded from. */
    function MailResourcePath(): (r: Result<string, DocError>)
      ensures r.Failure? <==> !isEmail
      ensures r.Success? ==> r.value == Path()
    {
      match Guard(MailResourceOf)
      case Some(e) => Failure(e)
      case None => Success(ext.extractPath(uid))
    }

    /** The title field, else the subject field, else the base name of the
        file name, which exists for files only. */
    function GetTitle(): (r: Result<string, DocError>)
      ensures Get(stored, Title).Some? ==> r == Success(Get(stored, Title).value)
      ensures Get(stored, Title).None? && Get(stored, Subject).Some? ==>
                r == Success(Get(stored, Subject).value)
      ensures Get(stored, Title).None? && Get(stored, Subject).None? ==>
                (isEmail ==> r == Failure(Unsupported)) &&
                (!isEmail && Get(stored, Filename).None? ==> r == Failure(NullValue)) &&
                (!isEmail && Get(stored, Filename).Some? ==>
                   r == Success(ext.splitFilename(Get(stored, Filename).value).0))
    {
      var title := Get(stored, Title);
      var title := if title.None? then Get(stored, Subject) else title;
      if title.Some? then Success(title.value)
      else
        match GetFilename()
        case Failure(e) => Failure(e)
        case Success(name) =>
          if name.None? then Failure(NullValue) else Success(ext.splitFilename(name.value).0)
    }

    /** The author values joined with ", ", else the sender, else "". */
    function GetAuthors(): (r: string)
      ensures |GetValues(stored, Author)| > 0 ==> r == Join(", ", GetValues(stored, Author))
      ensures |GetValues(stored, Author)| == 1 ==> r == GetValues(stored, Author)[0]
      ensures |GetValues(stored, Author)| > 0 ==>
                |r| == TotalLength(GetValues(stored, Author)) + (|GetValues(stored, Author)| - 1) * 2
      ensures GetValues(stored, Author) == [] ==>
                r == (if Get(stored, Sender).Some? then Get(stored, Sender).value else "")
    {
      var authors := GetValues(stored, Author);
      if |authors| > 0 then
        JoinLength(", ", authors);
        Join(", ", authors)
      else
        match Get(stored, Sender)
        case None => ""
        case Some(s) => s
    }

    /** The file extension or mail type; `None` where the field is missing. */
    function GetType(): (r: Option<string>)
      ensures r.Some? <==> Type in stored && |stored[Type]| > 0
      ensures r.Some? ==> r.value == stored[Type][0]
    {
      Get(stored, Type)
    }

    /** Whether the parser recorded for the document has the given simple
        class name; a missing parser field is dereferenced and fails. */
    function WasParsedBy(parserClass: string): (r: Result<bool, DocError>)
      ensures r.Failure? <==> ParserName().None?
      ensures r.Success? ==> (r.value <==> ParserName() == Some(parserClass))
    {
      match Get(stored, Parser)
      case None => Failure(NullValue)
      case Some(p) => Success(p == parserClass)
    }

    function IsHtmlFile(): (r: Result<bool, DocError>)
      ensures r.Failure? <==> ParserName().None?
      ensures r.Success? ==> (r.value <==> ParserName() == Some("HtmlParser"))
    {
      WasParsedBy("HtmlParser")
    }

    function IsPdfFile(): (r: Result<bool, DocError>)
      ensures r.Failure? <==> ParserName().None?
      ensures r.Success? ==> (r.value <==> ParserName() == Some("PdfParser"))
    {
      WasParsedBy("PdfParser")
    }
  }

  /** Exactly one of the two accessor families works on a given document:
      the file-only ones on files and the email-only ones on emails. */
  lemma KindsAreExclusive(d: ResultDocument)
    ensures d.isEmail <==> d.GetFilename().Failure? && d.GetLastModified().Failure? &&
                           d.FileResourcePath().Failure? && d.TextSource().Failure? &&
                           d.PdfPagesSource().Failure?
    ensures !d.isEmail <==> d.GetSender().Failure? && d.GetDate().Failure? &&
                            d.MailResourcePath().Failure?
    ensures forall a: Accessor :: d.Guard(a).Some? <==> (FileOnly(a) <==> d.isEmail)
  {
  }

  /** Calling a memoising getter twice gives the same value twice and the
      second call leaves the document as the first left it. */
  method GetSizeInKBTwice(d: ResultDocument) returns (first: Result<int, DocError>, second: Result<int, DocError>)
    requires d.Valid()
    modifies d`sizeInKB
    ensures first == second
    ensures first.Success? <==> d.HasSize()
    ensures d.HasSize() && d.SizeInKB() >= 0 ==> d.sizeInKB == d.SizeInKB()
  {
    first := d.GetSizeInKB();
    ghost var afterFirst := d.sizeInKB;
    second := d.GetSizeInKB();
    assert d.HasSize() && d.SizeInKB() >= 0 ==> d.sizeInKB == afterFirst;
  }

  /** Each author value appears in the authors string, in order, after the
      values before it and one ", " between each two. */
  lemma AuthorsListEachAuthor(d: ResultDocument, k: nat)
    requires k < |GetValues(d.stored, Author)|
    ensures var authors := GetValues(d.stored, Author);
            var off := TotalLength(authors[..k]) + k * 2;
            off + |authors[k]| <= |d.GetAuthors()| &&
            d.GetAuthors()[off..off + |authors[k]|] == authors[k]
  {
    JoinContainsParts(", ", GetValues(d.stored, Author), k);
  }

  /** Right after each author value but the last, the authors string holds
      ", ". */
  lemma AuthorsSeparatedByComma(d: ResultDocument, k: nat)
    requires k + 1 < |GetValues(d.stored, Author)|
    ensures var authors := GetValues(d.stored, Author);
            var off := TotalLength(authors[..k + 1]) + k * 2;
            off + 2 <= |d.GetAuthors()| &&
            d.GetAuthors()[off..off + 2] == ", "
  {
    JoinSeparatesParts(", ", GetValues(d.stored, Author), k);
  }

  /** For a stored size written as a non-negative decimal number, the
      cached size is that number of bytes rounded up to whole kilobytes. */
  lemma SizeInKBOfDecimal(d: ResultDocument, bytes: nat)
    requires bytes <= MaxLong
    requires Get(d.stored, Size) == Some(Decimal(bytes))
    ensures d.HasSize()
    ensures d.SizeInKB() * 1024 >= bytes
    ensures d.SizeInKB() == (bytes + 1023) / 1024
  {
    ParseDecimal(bytes);
    KiloBytesIsCeiling(bytes);
  }
}
