/** The parts of the filesystem core library that the error translation layer
    consumes: the `Errno` enumeration (restricted to the symbols the layer can
    produce) and the `ErrnoError` record it builds. */
module Errnos {
  import opened Wrappers

  /** The POSIX error symbols produced by the DOMException classifier.
      Their numeric values belong to the core library and are not modelled. */
  datatype Errno =
    | EINVAL     // invalid argument
    | EXDEV      // cross-device link
    | EACCES     // permission denied
    | ENOENT     // no such file or directory
    | ENOTSUP    // operation not supported
    | EBUSY      // resource busy
    | ENETDOWN   // network is down
    | EINTR      // interrupted
    | ENOSPC     // no space left on device
    | ETIMEDOUT  // timed out
    | EROFS      // read-only file system
    | EIO        // input/output error, the catch-all
  {
    /** The enumeration key of this code, an element of `keyof typeof Errno` */
    function Symbol(): string
    {
      match this
      case EINVAL => "EINVAL"
      case EXDEV => "EXDEV"
      case EACCES => "EACCES"
      case ENOENT => "ENOENT"
      case ENOTSUP => "ENOTSUP"
      case EBUSY => "EBUSY"
      case ENETDOWN => "ENETDOWN"
      case EINTR => "EINTR"
      case ENOSPC => "ENOSPC"
      case ETIMEDOUT => "ETIMEDOUT"
      case EROFS => "EROFS"
      case EIO => "EIO"
    }
  }

  /** Every code of the enumeration, listed once */
  const AllErrnos: set<Errno> :=
    {EINVAL, EXDEV, EACCES, ENOENT, ENOTSUP, EBUSY, ENETDOWN, EINTR, ENOSPC, ETIMEDOUT, EROFS, EIO}

  /** The enumeration is closed and has exactly twelve distinct codes. */
  lemma AllErrnosComplete(e: Errno)
    ensures e in AllErrnos
    ensures |AllErrnos| == 12
  {
  }

  /** Indexing the enumeration by key, `Errno[key]`: the code whose symbol is
      `key`, or None for a string that is not one of its keys. */
  function FromSymbol(key: string): (r: Option<Errno>)
    ensures r.Some? ==> r.value.Symbol() == key
    ensures r.None? ==> forall e: Errno :: e.Symbol() != key
  {
    match key
    case "EINVAL" => Some(EINVAL)
    case "EXDEV" => Some(EXDEV)
    case "EACCES" => Some(EACCES)
    case "ENOENT" => Some(ENOENT)
    case "ENOTSUP" => Some(ENOTSUP)
    case "EBUSY" => Some(EBUSY)
    case "ENETDOWN" => Some(ENETDOWN)
    case "EINTR" => Some(EINTR)
    case "ENOSPC" => Some(ENOSPC)
    case "ETIMEDOUT" => Some(ETIMEDOUT)
    case "EROFS" => Some(EROFS)
    case "EIO" => Some(EIO)
    case _ => None
  }

  /** Looking a code's own key up gives the code back, so distinct codes have
      distinct keys. */
  lemma SymbolRoundTrip(e: Errno, e': Errno)
    ensures FromSymbol(e.Symbol()) == Some(e)
    ensures e.Symbol() == e'.Symbol() ==> e == e'
  {
  }

  /** The error the filesystem layer raises: `new ErrnoError(code, message,
      path, syscall)` with its `stack` and `cause` fields. `C` is the type of
      whatever a cause may be. The record holds the constructor's arguments
      as given: `message` is the message passed in, not the `.message` text
      the library's constructor builds from it. */
  datatype ErrnoError<C> = ErrnoError(
    code: Errno,
    message: string,
    path: Option<string>,
    syscall: Option<string>,
    stack: Option<string>,
    cause: Option<C>)
}
