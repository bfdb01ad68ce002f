/**
  Problem codes and the problem list (botbot/checker.py, botbot/problist.py).

  The problem list is an append-only log of (file, code) pairs; problist.py
  is not part of this model, so `add_problem` is modelled as appending.
 */
module Problems {
  import opened Wrappers
  import opened FileTree

  /** Problem codes are stable string identifiers. */
  type ProblemCode = string

  const PROB_BROKEN_LINK: ProblemCode := "PROB_BROKEN_LINK"
  const PROB_DIR_NOT_WRITABLE: ProblemCode := "PROB_DIR_NOT_WRITABLE"
  const PROB_UNKNOWN_ERROR: ProblemCode := "PROB_UNKNOWN_ERROR"

  /** One `add_problem(file, code)` entry. */
  datatype Problem = Problem(file: FileInfo, code: ProblemCode)

  /**
    The exception classes that matter to the handlers at
    botbot/checker.py:69-77; `OtherOSError` is OSError itself or any other
    subclass of it.
   */
  datatype ErrorClass = OSErrorClass | FileNotFoundErrorClass | PermissionErrorClass | NotADirectoryErrorClass | OtherOSError

  /** The class Python raises for an errno (PEP 3151). */
  function ClassOf(e: OsError): ErrorClass
  {
    if e.errno == ENOENT then FileNotFoundErrorClass
    else if e.errno == EPERM || e.errno == EACCES then PermissionErrorClass
    else if e.errno == ENOTDIR then NotADirectoryErrorClass
    else OtherOSError
  }

  /** `isinstance(e, cls)`: every raised error is an OSError. */
  predicate IsInstance(e: OsError, cls: ErrorClass)
  {
    cls == OSErrorClass || ClassOf(e) == cls
  }

  /**
    The code recorded for a filesystem error caught during the walk: the
    except clauses of botbot/checker.py:69-77, tried in order.
    FileNotFoundError gives a broken link, PermissionError an unwritable
    directory and every other OSError an unknown error; the three codes are
    distinct, so each is recorded for exactly these errnos.
   */
  function ProblemFor(e: OsError): (code: ProblemCode)
    ensures code == PROB_BROKEN_LINK <==> e.errno == ENOENT
    ensures code == PROB_DIR_NOT_WRITABLE <==> e.errno == EPERM || e.errno == EACCES
    ensures code == PROB_UNKNOWN_ERROR <==> e.errno !in {ENOENT, EPERM, EACCES}
  {
    assert PROB_BROKEN_LINK[5] != PROB_DIR_NOT_WRITABLE[5] && PROB_BROKEN_LINK[5] != PROB_UNKNOWN_ERROR[5];
    assert PROB_DIR_NOT_WRITABLE[5] != PROB_UNKNOWN_ERROR[5];
    if IsInstance(e, FileNotFoundErrorClass) then PROB_BROKEN_LINK
    else if IsInstance(e, PermissionErrorClass) then PROB_DIR_NOT_WRITABLE
    else PROB_UNKNOWN_ERROR  // `except OSError` catches everything left
  }
}
