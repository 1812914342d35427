/** errnoForDOMException: the many-to-one projection of DOMException names
    (the error names of the WebIDL standard) onto POSIX error symbols. */
module Classifier {
  import opened Wrappers
  import opened Errnos

  /** The switch on a DOMException's `name`: an exact, case-sensitive match
      whose fall-through groups share one key, and whose default is 'EIO'.
      The result is a key of the Errno enumeration. */
  function ErrnoForDOMException(name: string): (key: string)
    ensures FromSymbol(key).Some?
  {
    match name
    case "IndexSizeError" | "HierarchyRequestError" | "InvalidCharacterError"
       | "InvalidStateError" | "SyntaxError" | "NamespaceError"
       | "TypeMismatchError" | "ConstraintError" | "VersionError"
       | "URLMismatchError" | "InvalidNodeTypeError" => "EINVAL"
    case "WrongDocumentError" => "EXDEV"
    case "NoModificationAllowedError" | "InvalidModificationError"
       | "InvalidAccessError" | "SecurityError" | "NotAllowedError" => "EACCES"
    case "NotFoundError" => "ENOENT"
    case "NotSupportedError" => "ENOTSUP"
    case "InUseAttributeError" => "EBUSY"
    case "NetworkError" => "ENETDOWN"
    case "AbortError" => "EINTR"
    case "QuotaExceededError" => "ENOSPC"
    case "TimeoutError" => "ETIMEDOUT"
    case "ReadOnlyError" => "EROFS"
    case "DataCloneError" | "EncodingError" | "NotReadableError" | "DataError"
       | "TransactionInactiveError" | "OperationError" | "UnknownError" => "EIO"
    case _ => "EIO"
  }

  /** `Errno[errnoForDOMException(ex)]`: the code the classifier's key names.
      The lookup never misses, because every key the switch returns is one of
      the enumeration's. */
  function DomCode(name: string): (e: Errno)
    ensures e.Symbol() == ErrnoForDOMException(name)
  {
    FromSymbol(ErrnoForDOMException(name)).value
  }

  /** The classification table read by code, independently of the switch:
      the names each case group lists. The EIO row holds only the names the
      switch spells out; every other name also gives EIO, by the default. */
  function NamesFor(e: Errno): set<string>
  {
    match e
    case EINVAL => InvalidArgumentRow
    case EXDEV => {"WrongDocumentError"}
    case EACCES => PermissionRow
    case ENOENT => {"NotFoundError"}
    case ENOTSUP => {"NotSupportedError"}
    case EBUSY => {"InUseAttributeError"}
    case ENETDOWN => {"NetworkError"}
    case EINTR => {"AbortError"}
    case ENOSPC => {"QuotaExceededError"}
    case ETIMEDOUT => {"TimeoutError"}
    case EROFS => {"ReadOnlyError"}
    case EIO => ExplicitEioRow
  }

  /** The names of the EINVAL group */
  const InvalidArgumentRow: set<string> :=
    {"IndexSizeError", "HierarchyRequestError", "InvalidCharacterError",
     "InvalidStateError", "SyntaxError", "NamespaceError", "TypeMismatchError",
     "ConstraintError", "VersionError", "URLMismatchError", "InvalidNodeTypeError"}

  /** The names of the EACCES group */
  const PermissionRow: set<string> :=
    {"NoModificationAllowedError", "InvalidModificationError",
     "InvalidAccessError", "SecurityError", "NotAllowedError"}

  /** The names listed just above the default, sharing its EIO */
  const ExplicitEioRow: set<string> :=
    {"DataCloneError", "EncodingError", "NotReadableError", "DataError",
     "TransactionInactiveError", "OperationError", "UnknownError"}

  /** A name that some case of the switch spells out */
  ghost predicate Listed(name: string)
  {
    exists e: Errno :: name in NamesFor(e)
  }

  /** A name the classifier sends to EIO by the table: listed under EIO, or
      not listed at all */
  ghost predicate EioLike(name: string)
  {
    name in NamesFor(EIO) || !Listed(name)
  }

  /** Two names listed in the same row */
  ghost predicate SameRow(name: string, name': string)
  {
    exists e: Errno :: name in NamesFor(e) && name' in NamesFor(e)
  }

  /** The eleven names of the first group give EINVAL. */
  lemma InvalidArgumentNames()
    ensures DomCode("IndexSizeError") == EINVAL
    ensures DomCode("HierarchyRequestError") == EINVAL
    ensures DomCode("InvalidCharacterError") == EINVAL
    ensures DomCode("InvalidStateError") == EINVAL
    ensures DomCode("SyntaxError") == EINVAL
    ensures DomCode("NamespaceError") == EINVAL
    ensures DomCode("TypeMismatchError") == EINVAL
    ensures DomCode("ConstraintError") == EINVAL
    ensures DomCode("VersionError") == EINVAL
    ensures DomCode("URLMismatchError") == EINVAL
    ensures DomCode("InvalidNodeTypeError") == EINVAL
  {
  }

  /** WrongDocumentError gives EXDEV and the five access names give EACCES. */
  lemma CrossDeviceAndAccessNames()
    ensures DomCode("WrongDocumentError") == EXDEV
    ensures DomCode("NoModificationAllowedError") == EACCES
    ensures DomCode("InvalidModificationError") == EACCES
    ensures DomCode("InvalidAccessError") == EACCES
    ensures DomCode("SecurityError") == EACCES
    ensures DomCode("NotAllowedError") == EACCES
  {
  }

  /** NotFoundError, NotSupportedError, InUseAttributeError and NetworkError
      give ENOENT, ENOTSUP, EBUSY and ENETDOWN. */
  lemma LookupAndResourceNames()
    ensures DomCode("NotFoundError") == ENOENT
    ensures DomCode("NotSupportedError") == ENOTSUP
    ensures DomCode("InUseAttributeError") == EBUSY
    ensures DomCode("NetworkError") == ENETDOWN
  {
  }

  /** AbortError, QuotaExceededError, TimeoutError and ReadOnlyError give
      EINTR, ENOSPC, ETIMEDOUT and EROFS. */
  lemma InterruptAndLimitNames()
    ensures DomCode("AbortError") == EINTR
    ensures DomCode("QuotaExceededError") == ENOSPC
    ensures DomCode("TimeoutError") == ETIMEDOUT
    ensures DomCode("ReadOnlyError") == EROFS
  {
  }

  /** The first four names listed above the default give EIO. */
  lemma ExplicitEioNamesFirst()
    ensures DomCode("DataCloneError") == EIO
    ensures DomCode("EncodingError") == EIO
    ensures DomCode("NotReadableError") == EIO
    ensures DomCode("DataError") == EIO
  {
  }

  /** The last three names listed above the default give EIO. */
  lemma ExplicitEioNamesLast()
    ensures DomCode("TransactionInactiveError") == EIO
    ensures DomCode("OperationError") == EIO
    ensures DomCode("UnknownError") == EIO
  {
  }

  /** Table fidelity: each listed name gives exactly the code of its row. */
  lemma {:induction false} ListedNameGivesItsCode(name: string, e: Errno)
    requires name in NamesFor(e)
    ensures DomCode(name) == e
  {
    match e
    case EINVAL => InvalidArgumentNames();
    case EXDEV => CrossDeviceAndAccessNames();
    case EACCES => CrossDeviceAndAccessNames();
    case ENOENT => LookupAndResourceNames();
    case ENOTSUP => LookupAndResourceNames();
    case EBUSY => LookupAndResourceNames();
    case ENETDOWN => LookupAndResourceNames();
    case EINTR => InterruptAndLimitNames();
    case ENOSPC => InterruptAndLimitNames();
    case ETIMEDOUT => InterruptAndLimitNames();
    case EROFS => InterruptAndLimitNames();
    case EIO => ExplicitEioNamesFirst(); ExplicitEioNamesLast();
  }

  /** Only the names of a code's row can give a code other than EIO. */
  lemma CodeOtherThanEioComesFromItsRow(name: string)
    ensures DomCode(name) != EIO ==> name in NamesFor(DomCode(name))
  {
  }

  /** The classifier, characterised by the table for every name: a name gives
      `e` exactly when it is in the row of `e`, or `e` is EIO and the name is
      in no row. */
  lemma {:induction false} Classification(name: string, e: Errno)
    ensures DomCode(name) == e <==> name in NamesFor(e) || (e == EIO && !Listed(name))
  {
    CodeOtherThanEioComesFromItsRow(name);
    if name in NamesFor(e) {
      ListedNameGivesItsCode(name, e);
    } else if DomCode(name) == e && e == EIO && Listed(name) {
      var e' :| name in NamesFor(e');
      ListedNameGivesItsCode(name, e');
    }
  }

  /** The default arm: an unlisted name, whatever it is, gives EIO. */
  lemma {:induction false} UnlistedNameGivesEio(name: string)
    requires !Listed(name)
    ensures DomCode(name) == EIO
  {
    Classification(name, EIO);
  }

  /** No name is listed under two codes. */
  lemma {:induction false} RowsAreDisjoint(e: Errno, e': Errno)
    requires e != e'
    ensures NamesFor(e) !! NamesFor(e')
  {
    forall name | name in NamesFor(e) && name in NamesFor(e')
      ensures false
    {
      ListedNameGivesItsCode(name, e);
      ListedNameGivesItsCode(name, e');
    }
  }

  /** The names listed under EIO are classified like an unlisted name. */
  lemma {:induction false} ExplicitEioIsDefault(listed: string, other: string)
    requires listed in NamesFor(EIO)
    requires !Listed(other)
    ensures DomCode(listed) == DomCode(other) == EIO
  {
    ListedNameGivesItsCode(listed, EIO);
    UnlistedNameGivesEio(other);
  }

  /** Matching is exact and case-sensitive: differently cased spellings and
      the empty name fall through to the default. */
  lemma CaseSensitive()
    ensures DomCode("") == EIO
    ensures DomCode("notfounderror") == EIO
    ensures DomCode("NOTFOUNDERROR") == EIO
  {
  }

  /** The classifier reaches every one of the twelve codes, so its range is
      exactly the enumeration. */
  lemma {:induction false} EveryCodeIsReached(e: Errno)
    ensures exists name :: DomCode(name) == e
  {
    var name: string :=
      match e
      case EINVAL => "IndexSizeError"
      case EXDEV => "WrongDocumentError"
      case EACCES => "SecurityError"
      case ENOENT => "NotFoundError"
      case ENOTSUP => "NotSupportedError"
      case EBUSY => "InUseAttributeError"
      case ENETDOWN => "NetworkError"
      case EINTR => "AbortError"
      case ENOSPC => "QuotaExceededError"
      case ETIMEDOUT => "TimeoutError"
      case EROFS => "ReadOnlyError"
      case EIO => "UnknownError";
    ListedNameGivesItsCode(name, e);
  }
}
