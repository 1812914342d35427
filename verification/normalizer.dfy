/** convertException: folds the three shapes a caught failure can have into
    one ErrnoError, ready for the caller to rethrow. */
module Normalizer {
  import opened Wrappers
  import opened Errnos
  import opened Classifier

  /** The fields every JavaScript Error carries, as a DOMException or a plain
      Error presents them: its `name`, `message`, `stack` and `cause`. */
  datatype HostError<C> = HostError(
    name: string,
    message: string,
    stack: Option<string>,
    cause: Option<C>)

  /** `ErrnoError | DOMException | Error`. The variant stands for the
      `instanceof` test that succeeds first, so a DOMException is never taken
      for a plain Error, whatever its name. */
  datatype ConvertException<C> =
    | FromErrno(error: ErrnoError<C>)
    | FromDOMException(ex: HostError<C>)
    | FromError(ex: HostError<C>)

  /** convertException(ex, path?, syscall?): an ErrnoError is returned as it
      is; a DOMException is classified by its name; any other Error is EIO.
      An omitted `path` or `syscall` is None. */
  function Convert<C>(ex: ConvertException<C>, path: Option<string>, syscall: Option<string>): (r: ErrnoError<C>)
    ensures ex.FromErrno? ==> r == ex.error
    ensures ex.FromDOMException? ==> r.code == DomCode(ex.ex.name)
    ensures ex.FromError? ==> r.code == EIO
    ensures !ex.FromErrno? ==>
      && r.message == ex.ex.message
      && r.path == path
      && r.syscall == syscall
      && r.stack == ex.ex.stack
      && r.cause == ex.ex.cause
  {
    match ex
    case FromErrno(error) => error
    // new ErrnoError(code, ex.message, path, syscall), then ex's stack and cause
    case FromDOMException(dom) =>
      ErrnoError(DomCode(dom.name), dom.message, path, syscall, dom.stack, dom.cause)
    case FromError(error) =>
      ErrnoError(EIO, error.message, path, syscall, error.stack, error.cause)
  }

  /** A converted DOMException carries the code the table gives its name:
      the code of its row, or EIO for a name in no row. */
  lemma {:induction false} DomConversionFollowsTable<C>(ex: HostError<C>, path: Option<string>, syscall: Option<string>, e: Errno)
    ensures Convert(FromDOMException(ex), path, syscall).code == e
        <==> ex.name in NamesFor(e) || (e == EIO && !Listed(ex.name))
  {
    Classification(ex.name, e);
  }

  /** The result of a conversion is a fixed point: converting it again, with
      any context, changes nothing. */
  lemma ConvertIsIdempotent<C>(ex: ConvertException<C>, path: Option<string>, syscall: Option<string>,
                               path': Option<string>, syscall': Option<string>)
    ensures Convert(FromErrno(Convert(ex, path, syscall)), path', syscall') == Convert(ex, path, syscall)
  {
  }

  /** Dispatch is on the kind of exception, not on its name: a DOMException
      and a plain Error with the same fields convert to the same ErrnoError
      exactly when the DOMException's name is classified as EIO. */
  lemma {:induction false} DispatchIsByKind<C>(ex: HostError<C>, path: Option<string>, syscall: Option<string>)
    ensures Convert(FromDOMException(ex), path, syscall) == Convert(FromError(ex), path, syscall)
        <==> EioLike(ex.name)
  {
    Classification(ex.name, EIO);
  }

  /** Nothing of a DOMException leaks into the result beyond its message,
      stack, cause and the code of its name: two DOMExceptions convert alike,
      in the same context, exactly when those agree. */
  lemma {:induction false} OnlyClassifiedFieldsSurvive<C>(a: HostError<C>, b: HostError<C>,
                                                           path: Option<string>, syscall: Option<string>)
    ensures Convert(FromDOMException(a), path, syscall) == Convert(FromDOMException(b), path, syscall)
        <==> && a.message == b.message && a.stack == b.stack && a.cause == b.cause
             && (SameRow(a.name, b.name) || (EioLike(a.name) && EioLike(b.name)))
  {
    var ea := DomCode(a.name);
    Classification(a.name, ea);
    Classification(b.name, ea);
    if SameRow(a.name, b.name) {
      var e :| a.name in NamesFor(e) && b.name in NamesFor(e);
      Classification(a.name, e);
      Classification(b.name, e);
    }
    Classification(a.name, EIO);
    Classification(b.name, EIO);
  }

  /** A DOMException named NotFoundError, with message "missing", converted
      for `open` on "/tmp/x" */
  lemma NotFoundExample<C>(stack: Option<string>, cause: Option<C>)
    ensures Convert(FromDOMException(HostError("NotFoundError", "missing", stack, cause)), Some("/tmp/x"), Some("open"))
         == ErrnoError(ENOENT, "missing", Some("/tmp/x"), Some("open"), stack, cause)
  {
    LookupAndResourceNames();
  }

  /** A plain Error is EIO even when its name is a DOMException name. */
  lemma PlainErrorExample<C>(stack: Option<string>, cause: Option<C>)
    ensures Convert(FromError(HostError("NotFoundError", "boom", stack, cause)), Some("/a"), Some("read"))
         == ErrnoError(EIO, "boom", Some("/a"), Some("read"), stack, cause)
  {
  }
}
