# Picture registry: a Dafny model of the in-memory picture store

The service keeps a module-level list of picture records, loaded once at
startup, and serves seven handlers over it: health, count, list all, lookup by
id, create (which assigns the next id and appends), and the stub handlers
update and delete. This project models that list and those handlers.

- `pictures.dfy` (module `Pictures`): the values involved. A record is a
  `Picture` whose `id` is classified by what `int(picture["id"])` does on it:
  `IntId(n)`, `Missing` (KeyError) or `Unconvertible(e)` (the exception
  `int()` raises: ValueError, TypeError or OverflowError, never KeyError).
  All other keys of the record are kept verbatim as `fields`, a map that never holds the key "id". A create request is
  `NotJson` or `Json(body)`. The body is a JSON
  `Object(picture)` or a `NonObject(truthy)` value, with Python truthiness
  given by `Truthy`. A handler's `Outcome` is a `Response(code, payload)`,
  no response (`ReturnedNone`, when the function returns `None`), or an
  exception that escapes the handler (`Raised(e)`).
- `routes.dfy` (module `Routes`): the handlers. Lookup and create are stated
  as functions over the list: `FindById`/`LookupOutcome` and
  `MaxId`/`NextId`/`Create`. The class `PictureStore` holds the list as a
  `seq<Picture>` field and implements the handlers. Count and list-all are
  functions that read the field. Lookup is a method with the source's
  in-order loop, proved equal to `LookupOutcome`. Create is a method that
  appends to the field, proved equal to `Create`.
- `properties.dfy` (module `RouteProperties`): lemmas that relate handlers.
  Ids stay distinct and grow over any sequence of creates. A lookup of a
  just-assigned id returns the new record. A create changes no other lookup.
  Count agrees with list-all.

Where the source raises an exception it does not catch, the model returns
`Raised(e)` and leaves the list unchanged; it does not forbid the input with a
precondition. These cases are:

- create on a non-empty list where some record's id does not convert. The
  first such record's exception escapes from `max(...)`.
- create with a truthy body that is not a JSON object. `new_picture["id"] = …`
  raises TypeError after the new id has been computed.
- lookup that reaches a record whose id conversion raises something other
  than KeyError or ValueError (TypeError on null, a list or an object;
  OverflowError on an infinite number). The source catches only those two.

Two behaviours of the code are kept as written, though a reader might expect
otherwise:

- count answers 500 "Internal server error" on an empty list, because the
  source tests the list's truthiness.
- update and delete return `None` from the handler rather than an empty
  success response.

## Model

| member | source | states |
|---|---|---|
| `Routes.Health` | backend/routes.py:15-17 | health always answers 200 with status "OK", whatever the store holds |
| `Routes.PictureStore.constructor` | backend/routes.py:6-8 | the store starts as the list loaded at startup |
| `Routes.PictureStore.Count` | backend/routes.py:24-30 | 200 with the list's length exactly when the list is non-empty, otherwise 500 "Internal server error" |
| `Routes.PictureStore.GetPictures` | backend/routes.py:36-47 | always 200, and the array returned is exactly the current list (empty on an empty list); reading only |
| `Routes.FindById` | backend/routes.py:63-70 | the scan stops at the first record whose id converts to the key, or at the first record whose conversion raises an uncaught exception, having stepped past every earlier record; it runs off the end exactly when every record is stepped past |
| `Routes.LookupOutcome` | backend/routes.py:53-72 | lookup answers 200 with a record whose id equals the key and before which every record is stepped past; 404 with "Picture with id {id} not found" exactly when every record is stepped past; otherwise it raises the uncaught conversion error of a record before which every record is stepped past |
| `Routes.SkippedBy` | backend/routes.py:66-70 | the scan steps past a record exactly when its id is not the key and its conversion does not raise TypeError or OverflowError, the exceptions outside `except (KeyError, ValueError)` |
| `Routes.NotFoundMessage` | backend/routes.py:72 | the not-found message is "Picture with id " followed by decimal digits that denote the id, with no leading zero (a lone "0" for id 0), followed by " not found" |
| `Pictures.Decimal` | backend/routes.py:72 | the id is written as a non-empty string of decimal digits with no leading zero |
| `Pictures.DecimalValue` | backend/routes.py:72 | reading the digits `Decimal` writes back as a number gives the id |
| `Pictures.IntError` | backend/routes.py:66-68 | a record without an `id` key raises KeyError on `picture["id"]`; an unconvertible id raises the exception `int()` raises on it |
| `Pictures.Truthy` | backend/routes.py:97 | an object body is falsy exactly when the dict has no keys; any other JSON value has its own truthiness |
| `Routes.PictureStore.GetPictureById` | backend/routes.py:52-72 | the in-order loop with early return and skipped ids produces exactly the lookup outcome; the store is not modified |
| `Routes.MaxId` | backend/routes.py:104 | the max over a non-empty list succeeds exactly when all ids convert, is then an existing id and no smaller than any id, and otherwise raises the exception of the first id that does not convert |
| `Routes.NextId` | backend/routes.py:100-104 | the next id is 1 on an empty list, otherwise the largest existing id plus one, hence strictly larger than every existing id; it fails, with the first bad id's exception, exactly when some id does not convert |
| `Routes.Create` | backend/routes.py:89-110 | non-JSON gives 400 "Missing JSON in request" and a falsy body 400 "Invalid picture data", both leaving the list unchanged; 201 happens exactly for a truthy object body on a list of integer ids, and then exactly one record is appended whose other fields are the body's and whose id overwrites the client's with 1 or max + 1; every failure leaves the list unchanged |
| `Routes.PictureStore.CreatePicture` | backend/routes.py:78-110 | the handler's outcome and the new list are exactly those of `Create` on the old list |
| `Routes.PictureStore.UpdatePicture` | backend/routes.py:115-117 | the update stub returns None and changes nothing |
| `Routes.PictureStore.DeletePicture` | backend/routes.py:122-124 | the delete stub returns None and changes nothing |
| `RouteProperties.CreateKeepsIdsDistinct` | backend/routes.py:101-107 | a create, successful or not, keeps pairwise-distinct integer ids distinct |
| `RouteProperties.FindByIdAppend` | backend/routes.py:63-70 | appending a record never changes where an earlier scan stopped; a scan that ran off the end now stops at the new record or still runs off the end, as the new record dictates |
| `RouteProperties.CreatedRecordIsFound` | backend/routes.py:101-107 | after a successful create, lookup of the assigned id answers 200 with the created record |
| `RouteProperties.CreateLeavesOtherLookups` | backend/routes.py:107 | after a successful create, lookup of any other id has the same outcome as before |
| `RouteProperties.LookupNotFoundIff` | backend/routes.py:63-72 | on a list whose ids all convert or raise a caught exception, lookup answers 404 exactly when no id equals the key, and 200 exactly when one does |
| `RouteProperties.CreatesAssignIncreasingIds` | backend/routes.py:103-107 | over any sequence of creates on a list of integer ids, earlier records stay in place, all ids stay integers, and each created id exceeds every id before it |
| `RouteProperties.CreatesKeepIdsDistinct` | backend/routes.py:101-107 | over any sequence of creates, successful or not, on any list, integer ids that were pairwise distinct stay pairwise distinct |
| `RouteProperties.CountMatchesListing` | backend/routes.py:24-47 | when count succeeds, it reports the length of the array that list-all returns |

## Left out

- The Flask application, route registration and the `<int:id>` path converter (backend/__init__.py:1-8). The lookup key is a `nat`, because that converter matches only unsigned digit strings.
- `request.is_json` and `request.get_json()`. A request comes in already classified as `NotJson` or `Json(body)`.
- A request whose content type is JSON but whose body does not parse. For it `request.get_json()` (backend/routes.py:94) raises the framework's BadRequest after the `is_json` check (backend/routes.py:90) and before the falsy check (backend/routes.py:97). `Request` has no case for it, because the exception comes from the framework's parser.
- JSON serialisation by `jsonify` and building HTTP responses. A response is a (status, payload) value. How Flask turns an escaped exception or a `None` return into an HTTP error is not modelled; the outcome records only what the handler did.
- Elements of the loaded list that are not JSON objects (a string, a number, a list or null). For them `picture["id"]` raises TypeError (backend/routes.py:66, :104). The loaded list is taken to hold objects only, since a `Picture` is always a dict.
- Loading `pictures.json` with `open`/`json.load` at import time (backend/routes.py:6-8). This is file I/O; the initial list is the constructor's argument.
- Python's exact `int()` conversion rules for stored ids (strings with spaces, floats, booleans). Each stored id is pre-classified by its conversion result.
- The JSON values of fields other than `id` are opaque strings; the model only passes them through.
- Aliasing: the source appends the very dict it returns, so later mutation of one would show in the other. Values in the model cannot express this, and nothing in the source mutates a record after it is appended.
- Concurrent creates racing on the same max + 1. The model is sequential.
