# SessionStorage: the `$_SESSION` adapter of Zend\Session

This project models `Zend\Session\Storage\SessionStorage`, the session container that
takes the place of PHP's `$_SESSION` superglobal. It keeps the entries of the session
in step with the process-wide session slot. The entries are a key/value bag inherited
from `ArrayStorage`/`ArrayObject`.

- On construction it reconciles an optional seed with what the slot already holds.
- On `fromArray` it replaces every entry and takes the slot back.
- On teardown (`__destruct`) it leaves a plain array copy of its entries in the slot.
- It carries an advisory immutability flag stored as the reserved entry `_IMMUTABLE`.
- It keeps a cached copy of the platform's session save path.

Modules:

- `Wrappers`: `Option`, standing for PHP's `null` beside another value.
- `Php`: session values, `isset`, conversion to boolean, and PHP's loose `==` between strings.
- `Storage`: the slot (`SessionSlot`), the platform's save-path setting (`SavePathSetting`),
  the class `SessionStorage`, and the pure functions its methods are proved against.
  Both external cells count their writes in a ghost field, so "no write" can be stated.
- `Scenarios`: client methods that drive an instance through whole lifecycles
  and derive their results from the contracts alone.

Points where the code does less than its documented intent suggests (the model follows the code):

- When no seed is given and the slot already holds an `ArrayObject`, the new instance
  copies that container's entries but does not take over the slot. The slot keeps
  referring to the old container until the new instance's `fromArray` runs.
  This is shown by `Scenarios.SecondInstanceStaysDetached`.
- The immutability flag is an ordinary entry. `fromArray` replaces all entries, so it
  clears the flag when the new array lacks it. This is shown by `Scenarios.ImmutabilityRoundTrip`.
- `getSavePath` compares with PHP's loose `!=`, not strict inequality.
  - A `null` cache compares equal to the empty path, so an empty platform path never
    fills the cache, and `null` is returned.
  - Two numeric strings compare as numbers, so a cached `"1"` is not refreshed when the
    platform's path becomes `"01"`, although the two name different directories.
  - `Storage.RefreshedCacheIsPlatformPath` states exactly when the returned value
    differs from the platform's path.

## Model

| member | source | states |
|---|---|---|
| `Storage.Reconcile` | Storage/SessionStorage.php:46-56 | an explicit seed is used as given; without one, the seed is the slot's contents (none when the slot is unset or null, an object's array cast, an `ArrayObject`'s entries); the slot is to be overwritten unless no seed was given and the slot holds an `ArrayObject` |
| `Storage.SessionStorage.constructor` | Storage/SessionStorage.php:44-61 | entries equal the reconciled seed; the slot refers to the new instance (one write) when the reconciliation says so, otherwise the slot is not written and keeps the old container; the save-path cache starts null |
| `Storage.SessionStorage.Teardown` | Storage/SessionStorage.php:71-74 | the slot holds a plain array equal to the entries and so no longer refers to the instance; the instance itself is unchanged |
| `Storage.SessionStorage.InSlot` | Storage/SessionStorage.php:87 | the identity test `$_SESSION === $this`; when it holds, the slot holds an object whose entries are exactly this instance's |
| `Storage.SessionSlot.Assign` | Storage/SessionStorage.php:59 | an assignment to `$_SESSION`: the slot holds the new value and one more write is counted; also used for the writes at lines 73 and 88 |
| `Storage.SavePathSetting.Assign` | Storage/SessionStorage.php:137 | `session_save_path($savePath)`: the platform path becomes the argument and one more write is counted |
| `Storage.SessionStorage.FromArray` | Storage/SessionStorage.php:84-91 | entries become exactly the given array; the slot refers to this instance afterwards and is written only if it did not already; returns the same instance |
| `Storage.SessionStorage.MarkImmutable` | Storage/SessionStorage.php:98-102 | `_IMMUTABLE` is set to true, every other key and value is kept, `IsImmutable` holds afterwards; returns the same instance |
| `Php.Truthy` | Storage/SessionStorage.php:111 | PHP's conversion to boolean: `true` is truthy and every truthy value is set, so `null` is falsy |
| `Storage.SessionStorage.IsImmutable` | Storage/SessionStorage.php:109-112 | true iff `_IMMUTABLE` is present and truthy, so false when it is absent, null or falsy; reads only |
| `Storage.SessionStorage.SetSavePath` | Storage/SessionStorage.php:135-140 | the platform path (one write) and the cache both become the given path; returns the same instance |
| `Storage.SessionStorage.GetSavePath` | Storage/SessionStorage.php:120-127 | returns the refreshed cache; the platform path is unchanged and written once exactly when the cache was stale under the loose comparison, never otherwise |
| `Storage.CacheIsStale` | Storage/SessionStorage.php:123 | the loose `!=` test: a null cache is stale exactly when the platform path is non-empty, a cache equal to the platform path is never stale, and a stale cache always differs from the platform path |
| `Storage.RefreshedCache` | Storage/SessionStorage.php:122-126 | the refreshed cache is either the old cache or the platform path, and is never stale afterwards, so a second read performs no write |
| `Storage.RefreshedCacheIsPlatformPath` | Storage/SessionStorage.php:122-126 | the refreshed cache differs from the platform path iff the cache was null and the path empty, or the two are different spellings of one integer (exact for integers up to `PHP_INT_MAX`, as `Php.LooseEqualStrings` is) |
| `Storage.StaleRespellingIsKept` | Storage/SessionStorage.php:123 | a cached digit string of at most 18 digits (below `PHP_INT_MAX`) is not refreshed when the platform's path is the same digits behind leading zeros, and the stale spelling is returned |
| `Php.LooseEqualStrings` | Storage/SessionStorage.php:123 | equal strings are loosely equal, and two different strings are loosely equal only when both are numeric |
| `Php.LeadingZerosKeepValue` | Storage/SessionStorage.php:123 | leading zeros do not change the numeric value of a digit string |
| `Php.LeadingZerosLooselyEqual` | Storage/SessionStorage.php:123 | a digit string of at most 18 digits (below `PHP_INT_MAX`) and the same digits behind one or more zeros are different strings that compare loosely equal |
| `Scenarios.SeedFromSlot` | Storage/SessionStorage.php:46-60 | with no seed, a plain array in the slot becomes the entries and the slot then refers to the new instance |
| `Scenarios.ExplicitSeedOverridesSlot` | Storage/SessionStorage.php:46-60 | an explicit seed becomes the entries whatever the slot holds, and the slot then refers to the new instance |
| `Scenarios.ObjectInSlotIsCast` | Storage/SessionStorage.php:51-53 | an object of another class in the slot seeds the entries with its properties |
| `Scenarios.SecondInstanceStaysDetached` | Storage/SessionStorage.php:47-50 | an instance built while the slot holds another copies its entries, the slot keeps the first instance, and a reload moves the slot to the second |
| `Scenarios.ReloadThenTeardown` | Storage/SessionStorage.php:71-91 | a reload drops earlier keys, a repeated reload does not write the slot, and teardown leaves a plain copy of the final entries, so the slot no longer refers to the instance |
| `Scenarios.ImmutabilityRoundTrip` | Storage/SessionStorage.php:98-112 | a fresh instance is not immutable, marking makes it so and is idempotent, the flag is a visible entry, and a reload without it clears it |
| `Scenarios.SavePathCaching` | Storage/SessionStorage.php:120-140 | a second read with no platform change writes nothing and returns the same path; a platform-side change is picked up by the next read |
| `Scenarios.EmptyPlatformPathLeavesCacheNull` | Storage/SessionStorage.php:122-126 | with an empty platform path the cache stays null and null is returned |

## Left out

- The inherited `ArrayStorage`/`ArrayObject` container is not part of this model. Its constructor is
  taken as "entries := input", its `fromArray` as "replace every entry", `getArrayCopy` as a copy of
  the entries. Per-key reads and writes are plain map updates. Access flags, the iterator class and
  property-style access (the `$flags` and `$iteratorClass` parameters) are not modelled.
- Every `ArrayObject` found in the slot is modelled as a `SessionStorage`, the only container class
  here. Constructing from it copies its entries; PHP's sharing of storage between an `ArrayObject`
  and one built from it is not modelled.
- A scalar in the slot (a string or number), for which the base constructor raises an error, is not
  modelled. An object's array cast is taken as its property table; PHP's name mangling of private
  and protected properties is not modelled.
- `$_SESSION` and `session_save_path()` are replaced by the explicit `SessionSlot` and
  `SavePathSetting` objects. Errors that `session_save_path` can raise are not modelled.
- Destructor timing and garbage collection: teardown is one explicit final call, `Teardown`.
- Enforcement of immutability on writes: the source does none, so the flag stays advisory.
- Session values are limited to null, booleans, integers, strings, arrays and opaque objects;
  floats and their truthiness are not modelled.
- `Php.LooseEqualStrings`: numeric strings are limited to an optional sign and decimal digits.
  PHP also treats fractions, exponents and surrounding whitespace as numeric, and compares
  integers beyond 64 bits as floats; those comparisons are not modelled.
