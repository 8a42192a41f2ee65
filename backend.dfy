/**
 * The backend contract shared by every concrete backend (`Itamae::Backend::Base`):
 * before a file or a directory is handed to a backend's transfer primitive, the
 * source path is checked against the LOCAL filesystem, first for existence and
 * then for its kind; a failed check is reported as `SourceNotExistError` with a
 * message naming the path, and the primitive is not reached.
 */
module Backend {
  import opened Wrappers

  /** What the local filesystem says a path is (after following symbolic links). */
  datatype Kind = RegularFile | Directory | Special

  /** The local filesystem as the check sees it: a path exists iff it is a key. */
  type FileSystem = map<string, Kind>

  /** The two guarded operations, `send_file` and `send_directory`. */
  datatype Transfer = FileTransfer | DirectoryTransfer {
    /** The kind of source the operation accepts. */
    function Expected(): (k: Kind) {
      if FileTransfer? then RegularFile else Directory
    }
  }

  /** Why the pre-transfer check refused a source. */
  datatype SourceError =
    | Missing(op: Transfer, path: string)
    | WrongKind(op: Transfer, path: string)

  /** What a concrete backend's transfer primitive reports: the bytes went over, or the transport failed. */
  datatype Delivery = Delivered | TransportFailed(detail: string)

  /**
   * The outcome of a guarded transfer: refused by the local check (`SourceNotExistError`,
   * which only the check raises), or the primitive's own report, passed through unchanged.
   */
  datatype Outcome = SourceNotExist(msg: string) | Transferred(delivery: Delivery)

  /** A concrete backend's transfer primitive, from (source, destination) to its report. */
  type Primitive = (string, string) -> Delivery

  /** The text of the `SourceNotExistError` raised for each refusal. */
  function Message(e: SourceError): (m: string) {
    match e
    case Missing(FileTransfer, p) => "The file '" + p + "' doesn't exist."
    case Missing(DirectoryTransfer, p) => "The directory '" + p + "' doesn't exist."
    case WrongKind(FileTransfer, p) => "'" + p + "' is not a file."
    case WrongKind(DirectoryTransfer, p) => "'" + p + "' is not a directory."
  }

  /** The part of `m` between the prefix `pre` and the suffix `suf`, if `m` has both. */
  function Between(m: string, pre: string, suf: string): (r: Option<string>)
    ensures r.Some? ==> pre + r.value + suf == m
  {
    if |pre| + |suf| <= |m| && m[..|pre|] == pre && m[|m| - |suf|..] == suf then
      var p := m[|pre|..|m| - |suf|];
      assert m == m[..|pre|] + p + m[|m| - |suf|..];
      Some(p)
    else
      None
  }

  lemma BetweenOfConcat(pre: string, p: string, suf: string)
    ensures Between(pre + p + suf, pre, suf) == Some(p)
  {
  }

  /**
   * Reads an error message back into the refusal it reports; `None` for any
   * text that is not one of the four messages.
   */
  function ParseMessage(m: string): (r: Option<SourceError>)
    ensures r.Some? ==> Message(r.value) == m
  {
    var missingFile := Between(m, "The file '", "' doesn't exist.");
    var missingDir := Between(m, "The directory '", "' doesn't exist.");
    var notFile := Between(m, "'", "' is not a file.");
    var notDir := Between(m, "'", "' is not a directory.");
    if missingFile.Some? then Some(Missing(FileTransfer, missingFile.value))
    else if missingDir.Some? then Some(Missing(DirectoryTransfer, missingDir.value))
    else if notFile.Some? then Some(WrongKind(FileTransfer, notFile.value))
    else if notDir.Some? then Some(WrongKind(DirectoryTransfer, notDir.value))
    else None
  }

  /** Every message reads back as the refusal it was made from. */
  lemma ParseMessageOfMessage(e: SourceError)
    ensures ParseMessage(Message(e)) == Some(e)
  {
    var m := Message(e);
    match e
    case Missing(FileTransfer, p) =>
      BetweenOfConcat("The file '", p, "' doesn't exist.");
    case Missing(DirectoryTransfer, p) =>
      assert m[4] == 'd';
      assert Between(m, "The file '", "' doesn't exist.") == None;
      BetweenOfConcat("The directory '", p, "' doesn't exist.");
    case WrongKind(FileTransfer, p) =>
      assert m[0] == '\'';
      assert Between(m, "The file '", "' doesn't exist.") == None;
      assert Between(m, "The directory '", "' doesn't exist.") == None;
      BetweenOfConcat("'", p, "' is not a file.");
    case WrongKind(DirectoryTransfer, p) =>
      assert m[0] == '\'';
      assert m[|m| - 2] == 'y';
      assert Between(m, "The file '", "' doesn't exist.") == None;
      assert Between(m, "The directory '", "' doesn't exist.") == None;
      assert Between(m, "'", "' is not a file.") == None;
      BetweenOfConcat("'", p, "' is not a directory.");
  }

  /** Different refusals never share a message: the text names the operation, the failed check and the path. */
  lemma MessageInjective(e1: SourceError, e2: SourceError)
    ensures Message(e1) == Message(e2) <==> e1 == e2
  {
    ParseMessageOfMessage(e1);
    ParseMessageOfMessage(e2);
  }

  /**
   * The shared check: existence first, then kind. `None` lets the call through.
   */
  function CheckSource(fs: FileSystem, op: Transfer, src: string): (r: Option<SourceError>)
    ensures r == None <==> src in fs && fs[src] == op.Expected()
    ensures r.Some? ==> r.value.op == op && r.value.path == src
    ensures r.Some? ==> (r.value.Missing? <==> src !in fs)
  {
    if src !in fs then Some(Missing(op, src))
    else if fs[src] != op.Expected() then Some(WrongKind(op, src))
    else None
  }

  /** A guarded transfer: the check, then delegation to the primitive, whose report is passed through. */
  function Send(op: Transfer, fs: FileSystem, src: string, dst: string, primitive: Primitive): (r: Outcome)
    ensures src in fs && fs[src] == op.Expected() ==> r == Transferred(primitive(src, dst))
    ensures src !in fs ==> r == SourceNotExist(Message(Missing(op, src)))
    ensures src in fs && fs[src] != op.Expected() ==> r == SourceNotExist(Message(WrongKind(op, src)))
  {
    match CheckSource(fs, op, src)
    case Some(e) => SourceNotExist(Message(e))
    case None => Transferred(primitive(src, dst))
  }

  /** `Base#send_file`. */
  function SendFile(fs: FileSystem, src: string, dst: string, primitive: Primitive): (r: Outcome)
    ensures r.SourceNotExist? <==> !(src in fs && fs[src] == RegularFile)
    ensures src !in fs ==> r == SourceNotExist("The file '" + src + "' doesn't exist.")
    ensures src in fs && fs[src] != RegularFile ==> r == SourceNotExist("'" + src + "' is not a file.")
    ensures src in fs && fs[src] == RegularFile ==> r == Transferred(primitive(src, dst))
  {
    Send(FileTransfer, fs, src, dst, primitive)
  }

  /** `Base#send_directory`. */
  function SendDirectory(fs: FileSystem, src: string, dst: string, primitive: Primitive): (r: Outcome)
    ensures r.SourceNotExist? <==> !(src in fs && fs[src] == Directory)
    ensures src !in fs ==> r == SourceNotExist("The directory '" + src + "' doesn't exist.")
    ensures src in fs && fs[src] != Directory ==> r == SourceNotExist("'" + src + "' is not a directory.")
    ensures src in fs && fs[src] == Directory ==> r == Transferred(primitive(src, dst))
  {
    Send(DirectoryTransfer, fs, src, dst, primitive)
  }

  /**
   * A refused transfer reports, in its message alone, which check failed:
   * an absent path is always "doesn't exist", never a kind mismatch, and a
   * present path of the wrong kind is always the kind mismatch.
   */
  lemma RefusalMessageNamesCause(op: Transfer, fs: FileSystem, src: string, dst: string, primitive: Primitive)
    requires !(src in fs && fs[src] == op.Expected())
    ensures Send(op, fs, src, dst, primitive).SourceNotExist?
    ensures ParseMessage(Send(op, fs, src, dst, primitive).msg)
         == Some(if src in fs then WrongKind(op, src) else Missing(op, src))
  {
    ParseMessageOfMessage(CheckSource(fs, op, src).value);
  }

  /**
   * A refused transfer never depends on the primitive: no transfer is attempted
   * before the local source is valid, and the destination plays no part.
   */
  lemma RefusalIgnoresPrimitive(op: Transfer, fs: FileSystem, src: string, dst1: string, dst2: string, p1: Primitive, p2: Primitive)
    requires !(src in fs && fs[src] == op.Expected())
    ensures Send(op, fs, src, dst1, p1) == Send(op, fs, src, dst2, p2)
  {
  }

  /** The transfer stubs of the test's backend: they do nothing and raise nothing. */
  function Stub(src: string, dst: string): (d: Delivery) {
    Delivered
  }

  /** The three `send_file` contexts of the test file, on a filesystem holding at most `src`. */
  lemma SendFileExamples()
    ensures SendFile(map[], "src", "dst", Stub) == SourceNotExist("The file 'src' doesn't exist.")
    ensures SendFile(map["src" := Directory], "src", "dst", Stub) == SourceNotExist("'src' is not a file.")
    ensures SendFile(map["src" := RegularFile], "src", "dst", Stub) == Transferred(Delivered)
  {
  }

  /** The three `send_directory` contexts of the test file. */
  lemma SendDirectoryExamples()
    ensures SendDirectory(map[], "src", "dst", Stub) == SourceNotExist("The directory 'src' doesn't exist.")
    ensures SendDirectory(map["src" := RegularFile], "src", "dst", Stub) == SourceNotExist("'src' is not a directory.")
    ensures SendDirectory(map["src" := Directory], "src", "dst", Stub) == Transferred(Delivered)
  {
    assert "The directory '" + "src" + "' doesn't exist." == "The directory 'src' doesn't exist.";
    assert "'" + "src" + "' is not a directory." == "'src' is not a directory.";
  }
}
