# DOMException to errno translation, modelled in Dafny

The repository is a small error-translation layer for a browser-backed
filesystem. It has two parts, both in `src/utils.ts`:

- `errnoForDOMException` classifies a `DOMException` by its `name`. The
  names are the error names of the WebIDL standard (section 2.8.1, "Error
  names"). Each name maps to a POSIX errno key: `EINVAL`, `EXDEV`, `EACCES`,
  `ENOENT`, `ENOTSUP`, `EBUSY`, `ENETDOWN`, `EINTR`, `ENOSPC`, `ETIMEDOUT`,
  `EROFS` or `EIO`. Matching is an exact, case-sensitive `switch`, and every
  name it does not list falls through to `EIO`.
- `convertException` normalises an `ErrnoError | DOMException | Error`
  into one `ErrnoError`. An `ErrnoError` passes through unchanged. Anything
  else becomes a new `ErrnoError`:
  - a DOMException takes its code from the classifier;
  - any other Error takes `EIO`;
  - the message, stack and cause are copied from the input;
  - the path and syscall are the caller's arguments.

The model has four modules:

- `Wrappers` (`wrappers.dfy`): `Option`, used for every value that may be absent.
- `Errnos` (`errno.dfy`): the `Errno` enumeration, its keys, and the
  `ErrnoError` record. These are the parts of the filesystem core library
  that the layer uses.
- `Classifier` (`classifier.dfy`): the switch, written as a Dafny `match`
  on string literals with the same fall-through groups. It also holds an
  independent reading of the same table as one set of names per code
  (`NamesFor`), and lemmas that tie the two together for every string.
- `Normalizer` (`normalizer.dfy`): the three-way union as a datatype whose
  variant stands for the `instanceof` test, and `convertException` as a
  pure function.

The result's `stack` is declared as always present, but the code assigns
`ex.stack!`. That copies whatever the input holds, including nothing. The
model follows the code: it copies an `Option<string>` and does not claim
the result always has a stack.

## Model

| member | source | states |
|---|---|---|
| Classifier.ErrnoForDOMException | src/utils.ts:7-55 | Every name, listed or not, yields a string that is a key of the Errno enumeration (the declared `keyof typeof Errno` result), so the lookup at the call site never misses |
| Classifier.DomCode | src/utils.ts:71 | `Errno[errnoForDOMException(ex)]` is the code whose key the classifier returned |
| Errnos.FromSymbol | src/utils.ts:71 | Indexing Errno by a key gives the code with exactly that key; a string that is not one of the twelve keys gives None |
| Errnos.SymbolRoundTrip | src/utils.ts:71 | Looking up a code's own key gives the code back, and distinct codes have distinct keys |
| Errnos.AllErrnosComplete | src/utils.ts:8-54 | The codes the classifier can return form a closed enumeration of exactly twelve distinct values |
| Classifier.InvalidArgumentNames | src/utils.ts:9-20 | The eleven names IndexSizeError … InvalidNodeTypeError each give EINVAL |
| Classifier.CrossDeviceAndAccessNames | src/utils.ts:21-28 | WrongDocumentError gives EXDEV; NoModificationAllowedError, InvalidModificationError, InvalidAccessError, SecurityError and NotAllowedError give EACCES |
| Classifier.LookupAndResourceNames | src/utils.ts:29-36 | NotFoundError gives ENOENT, NotSupportedError ENOTSUP, InUseAttributeError EBUSY, NetworkError ENETDOWN |
| Classifier.InterruptAndLimitNames | src/utils.ts:37-44 | AbortError gives EINTR, QuotaExceededError ENOSPC, TimeoutError ETIMEDOUT, ReadOnlyError EROFS |
| Classifier.ExplicitEioNamesFirst | src/utils.ts:45-53 | DataCloneError, EncodingError, NotReadableError and DataError give EIO |
| Classifier.ExplicitEioNamesLast | src/utils.ts:49-53 | TransactionInactiveError, OperationError and UnknownError give EIO |
| Classifier.ListedNameGivesItsCode | src/utils.ts:9-53 | Table fidelity: any name in a code's row of the table is classified as that code |
| Classifier.CodeOtherThanEioComesFromItsRow | src/utils.ts:8-53 | A name classified as anything but EIO is one of the names listed for that code |
| Classifier.Classification | src/utils.ts:8-54 | For every string and every code, both directions: the name gives the code exactly when it is in that code's row, or the code is EIO and the name is in no row |
| Classifier.UnlistedNameGivesEio | src/utils.ts:52-53 | The default arm: any name the switch does not list gives EIO |
| Classifier.RowsAreDisjoint | src/utils.ts:9-51 | No name is listed under two different codes |
| Classifier.ExplicitEioIsDefault | src/utils.ts:45-53 | The seven names listed above the default are classified exactly like an unlisted name |
| Classifier.CaseSensitive | src/utils.ts:8 | Matching is exact: "", "notfounderror" and "NOTFOUNDERROR" fall through to EIO |
| Classifier.EveryCodeIsReached | src/utils.ts:8-54 | Each of the twelve codes is the classification of some name, so the range is the whole enumeration |
| Normalizer.Convert | src/utils.ts:66-76 | An ErrnoError comes back unchanged whatever path and syscall are passed. Otherwise the code comes from the classifier for a DOMException and is EIO for a plain Error. Message, stack and cause are the input's, and path and syscall are the arguments, absent when omitted |
| Normalizer.DomConversionFollowsTable | src/utils.ts:71 | A converted DOMException has code e exactly when its name is in e's row, or e is EIO and the name is in no row |
| Normalizer.ConvertIsIdempotent | src/utils.ts:67-69 | Converting a conversion's result again, with any context, gives the same ErrnoError |
| Normalizer.DispatchIsByKind | src/utils.ts:71 | A DOMException and a plain Error with the same fields convert alike exactly when the name is one the table sends to EIO |
| Normalizer.OnlyClassifiedFieldsSurvive | src/utils.ts:71-74 | Two DOMExceptions convert alike exactly when their messages, stacks and causes agree and their names share a row or both go to EIO; nothing else of the input reaches the result |
| Normalizer.NotFoundExample | src/utils.ts:66-75 | NotFoundError "missing" converted for `open` on "/tmp/x" gives ENOENT with that message, path and syscall, and the input's stack and cause |
| Normalizer.PlainErrorExample | src/utils.ts:71-72 | A plain Error named like a DOMException, message "boom", converted for `read` on "/a", gives EIO with that message, path and syscall |

## Left out

- The numeric values of `Errno`: they belong to the core library, whose source is not part of this model. The result's `code` is the enumeration symbol, not its number. The layer only ever names codes by key, so nothing here depends on the numbers.
- The rest of the `Errno` enumeration: only the twelve codes the classifier can return are declared. An incoming `ErrnoError` can carry any code of the library's enumeration (EEXIST, EPERM, …), so the identity case of `convertException` is shown only for errors carrying one of the twelve codes.
- The internals of the `ErrnoError` constructor, which is part of the core library: the message formatting, defaults and serialisation it may apply. The model records the constructor's arguments as given.
- Runtime `instanceof` dispatch and the class hierarchy: the variant of `ConvertException` stands for the first test that succeeds.
- Capturing a stack trace when an error is constructed: the stack is an optional string that is copied as it is.
- Throwing and rethrowing: `convertException` only returns a value.
- The host environment and the filesystem operations that raise these exceptions.
