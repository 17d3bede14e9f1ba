/**
  The file-backed store: reading the collection with its fallback to the empty
  state, and creating the file on first start. The file system and JSON text
  are not modelled; what a read, an access check or a write came to is given
  as a parameter.
 */
module Store {
  import opened Wrappers
  import opened Collection

  /** The error code Node gives a missing file. */
  const ENOENT := "ENOENT"

  /** What JSON.parse makes of the file's text. */
  datatype Parsed = SyntaxError | Decoded(state: State)

  /** What reading the data file came to: an error code, or its parsed text. */
  datatype FileRead = IoError(code: string) | Contents(parsed: Parsed)

  /**
    readDataFile: a missing file or text that is not JSON reads as the empty
    collection; any other read error is passed on to the caller.
   */
  function ReadDataFile(f: FileRead): (r: Result<State, string>)
    ensures r.Failure? <==> f.IoError? && f.code != ENOENT
    ensures r.Failure? ==> r.error == f.code
    ensures f == IoError(ENOENT) || f == Contents(SyntaxError) ==> r == Success(Empty)
    ensures f.Contents? && f.parsed.Decoded? ==> r == Success(f.parsed.state)
  {
    match f
    case IoError(code) => if code == ENOENT then Success(Empty) else Failure(code)
    case Contents(SyntaxError) => Success(Empty)
    case Contents(Decoded(s)) => Success(s)
  }

  /** What checking that the data file exists came to. */
  datatype Access = Accessible | AccessError(code: string)

  /** How the start-up initialisation ended. */
  datatype Startup =
    | Untouched                       // nothing written
    | Initialised(written: State)     // the file was created with this state
    | Rejected                        // the write failed; the promise rejects unhandled

  /**
    initDataFile: only a missing file (ENOENT) makes it write the empty state.
    Every other access error is caught and dropped. A failing write happens
    inside the catch block, so its error escapes.
   */
  function InitDataFile(a: Access, writeFails: bool): (r: Startup)
    ensures r.Initialised? <==> a == AccessError(ENOENT) && !writeFails
    ensures r.Initialised? ==> r.written == Empty
    ensures r.Rejected? <==> a == AccessError(ENOENT) && writeFails
    ensures a.AccessError? && a.code != ENOENT ==> r == Untouched
  {
    match a
    case Accessible => Untouched
    case AccessError(code) =>
      if code != ENOENT then Untouched
      else if writeFails then Rejected
      else Initialised(Empty)
  }
}
