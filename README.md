# ginm blueprint, modelled in Dafny

`ginm` binds a Go record type to a MongoDB collection and serves it as a REST
resource through the gin router. `NewBlueprint` records the type, database
and collection; `Blueprint.Routes` opens a route group named after the type
(lower-cased, pluralised) and registers up to six handlers, chosen by a
bitmask of `RouteNew`, `RouteList`, `RouteGet`, `RouteUpdate`, `RoutePatch`
and `RouteDelete`. The handlers create (`POST /`), list (`GET /`), read
(`GET /:id`), replace (`PUT /:id`), patch (`PATCH /:id`) and delete
(`DELETE /:id`) documents, and call the optional lifecycle hooks a record
type may implement (`PreCreate`, `PostCreate`, `PreUpdate`, `PostUpdate`).

The model has these modules:

- `Wrappers`: `Option` and `Result`.
- `Strconv`: Go's `strconv.Atoi` on a 64-bit platform, as a total function
  returning `None` on a syntax or range error, with `Itoa` as its inverse.
- `Store`: documents (`Doc`, a map from field name to `Value`), records
  (identifier plus fields), and the `Collection` class, whose `docs` map from
  identifier to document is what the mgo calls `FindId`, `Insert`,
  `UpdateId`, `UpdateId` with `$set`, and `RemoveId` read and change.
- `Hooks`: the six hook interfaces; a hook is a function from the record to
  the record it leaves behind and the error it returns.
- `Routing`: the route constants as 64-bit masks, the route table
  `Registrations(group, mask)` that `Routes` must produce, and the `Engine`
  class holding gin's route table.
- `Query`: `List`'s translation of a query string into a filter, a skip, a
  limit and a sort, and the page of rows the driver returns for them.
- `Ginm`: the `Blueprint` class with its constructor, `Routes` and the six
  handlers. A handler's gin context is replaced by its inputs (the `:id`
  parameter, the bound body, or `None` when binding fails, and the query
  string) and its outputs: the response (status and body) and the ordered
  list of events it caused (hooks called and store calls made).
- `Walkthrough`: one article taken through create, list, read, patch,
  replace, delete and list again, the requests of the repository's API test.

Behaviour of the code that the model keeps as written:

- Update and Patch answer 201 on success (`ginm.go:210`, `ginm.go:256`).
- Get answers 400 when the document is missing (`ginm.go:168-171`).
- Delete removes by identifier without reading the document first and calls
  no hook (`ginm.go:259-273`); `PreDelete` and `PostDelete` are declared in
  `iterface.go` but never called.
- Hook errors are ignored (`ginm.go:93`, `103`, `192`, `203`, `237`, `254`).
- Update calls `PostUpdate` with the record it wrote, before the re-read
  (`ginm.go:202-205`).

`Walkthrough.ArticleLifecycle` takes one article through the requests of the
repository's API test (`ginm_test.go:82-173`) with string identifiers (see
"## Left out"): there, PATCH and PUT answer 201 and the listing after the
delete is empty. The test itself gives the article a `bson.ObjectId`
identifier, which the handlers' string lookups never match; that is not
modelled.

## Model

| member | source | states |
|---|---|---|
| Ginm.Blueprint.constructor | ginm.go:26-37 | the record type is the instance's type with one level of pointer removed; database and collection are kept; no group yet |
| Routing.RouteConstants | ginm.go:39-47 | `RouteALL` is 63, every route constant is a single non-zero bit, two different constants share no bit, and `RouteALL` selects every handler |
| Routing.EffectiveMask | ginm.go:55-60 | the mask is the argument when exactly one is given, and `RouteALL` otherwise |
| Routing.Group | ginm.go:57 | the new group is the parent's path with the name appended as one more segment |
| Ginm.TypeName | ginm.go:56 | a named type's name, and "" for an unnamed (pointer) type, as `Type.Name()` |
| Ginm.Blueprint.GroupName | ginm.go:56 | the group name is the inflector applied to the lower-cased type name |
| Ginm.Lower | ginm.go:56 | lower-casing keeps the length and maps each ASCII upper-case letter to its lower-case letter, every other character to itself |
| Ginm.Blueprint.RegisterIf | ginm.go:61-79 | one `if (route & RouteX) != 0` test appends that handler's route exactly when its bit is set |
| Ginm.Blueprint.Routes | ginm.go:54-81 | the blueprint's group is the parent group extended by the pluralised lower-case type name, and the router's table grows by exactly `Registrations(group, mask)` for the effective mask, in source order |
| Routing.Engine.Handle | ginm.go:61-79 | registering a route appends it to the router's table and changes nothing else |
| Routing.Bit | ginm.go:61-77 | the `RouteX` constant each handler's test uses: `RouteNew` for New through `RouteDelete` for Delete |
| Routing.Entry | ginm.go:62-78 | each handler's route: POST "/" New, GET "/" List, GET "/:id" Get, PUT "/:id" Update, PATCH "/:id" Patch, DELETE "/:id" Delete, in the blueprint's group |
| Routing.Selects | ginm.go:61-79 | the test `(route & RouteX) != 0` for one handler |
| Routing.Registrations | ginm.go:61-79 | the routes of the handlers the mask selects, in the order New, List, Get, Update, Patch, Delete, each with its verb and path; characterised by the lemmas below |
| Routing.RegisteredIff | ginm.go:61-79 | a handler's (verb, path) route is registered iff its bit is set in the mask, and every registered route is the route of a selected handler |
| Routing.DefaultRegistersAll | ginm.go:55-79 | with zero or several mask arguments all six routes are registered: POST "/", GET "/", GET "/:id", PUT "/:id", PATCH "/:id", DELETE "/:id" |
| Routing.RegistrationsUnion | ginm.go:39-79 | the routes of the union of two masks are exactly the routes of either mask |
| Routing.SelectsUnion | ginm.go:39-79 | a handler is selected by the union of two masks iff either mask selects it |
| Routing.RegistrationsDistinct | ginm.go:61-79 | no route is registered twice by one call |
| Routing.RegistrationsInSteps | ginm.go:61-79 | the six tests run in order append exactly `Registrations(group, mask)` |
| Query.FilterOf | ginm.go:111-117 | the filter holds exactly the query keys other than `_limit`, `_offset` and `_sort`, each with its whole, unchanged value list |
| Query.DefaultQuery | ginm.go:121 | a parameter's value is its first value when it has one, and the default otherwise |
| Strconv.Atoi | ginm.go:122 | a parsed value lies in the 64-bit range and comes from an optional sign followed by at least one digit and digits only; its value is the digits' value, negated after `-`; conversely every unsigned or signed digit string whose value is in range parses |
| Strconv.AtoiItoa | ginm.go:122 | every 64-bit integer written in decimal parses back to itself |
| Strconv.DecimalValue | ginm.go:122 | the decimal spelling of a natural number has that number as its value |
| Query.MissingPagingIsUnbounded | ginm.go:121-142 | without `_limit` and `_offset` the query parses, nothing is skipped and nothing is capped |
| Query.Translate | ginm.go:111-148 | the query string translates iff both `_limit` and `_offset` parse, and the translated filter is `FilterOf` the query string |
| Query.TranslateOk | ginm.go:110-148 | when both paging values parse, the query runs with `FilterOf` the query string (its keys are the non-reserved ones) as filter, a skip iff the offset is positive, a cap iff the limit is positive, and a sort iff `_sort` is non-empty, each with the given value |
| Query.TranslateErr | ginm.go:121-134 | a `_limit` or `_offset` that does not parse stops the request; a bad limit is the one reported, and a bad offset is reported when the limit parsed |
| Query.InArray | ginm.go:113 | `inArray`: whether the key is one of the listed names |
| Query.SortField | ginm.go:147 | the field name the driver's sort keeps from a sort directive: an optional `$kind:` prefix is dropped when text follows the colon, then one leading `+` or `-` |
| Query.SortPanics | ginm.go:147 | the driver's sort panics exactly when no field name is left; `List` answers 500 then |
| Query.Index | ginm.go:147 | the position of the first occurrence of a character, or -1 when there is none |
| Query.SortPanicsOnBareSign | ginm.go:145-148 | a `_sort` of `+`, `-` or `$kind:-` leaves the driver's sort no field name, so it panics; a field name, signed or not, does not |
| Query.Page | ginm.go:136-142 | the page is the slice of the matches that starts after the skip and holds at most the limit, elementwise |
| Query.DropIsSuffix | ginm.go:136-138 | skipping `n` rows leaves the suffix after the first `n` (all of them gone when there are fewer) |
| Query.TakeIsPrefix | ginm.go:140-142 | capping at `n` rows keeps the prefix of length `n` (all of them when there are fewer) |
| Query.PageIsTakeDrop | ginm.go:136-142 | the page is `take(limit, drop(offset, matches))`, and just `drop(offset, matches)` without a cap |
| Ginm.Blueprint.List | ginm.go:110-157 | a paging parse error answers 400 and no query is run; a sort that names no field panics in the driver's sort, answered 500 with no query run; otherwise the translated query is run and the answer is 200 with its page, or 400 when the driver fails |
| Store.InsertedId | ginm.go:96 | an insert keeps the record's own identifier, and the server assigns one when it is empty |
| Store.Collection.Insert | ginm.go:96-100 | an insert succeeds iff the identifier is new, and then stores the record's fields under it; on failure nothing changes |
| Ginm.Blueprint.New | ginm.go:83-108 | a bind failure answers 400 with no hook, no store call and the store unchanged; otherwise PreCreate runs, then the insert; a failed insert answers 400 without PostCreate and leaves the store unchanged; a successful one stores the hooked record, runs PostCreate and answers 201 |
| Store.Collection.FindId | ginm.go:168 | a lookup returns the stored document, or nothing when the identifier is absent |
| Ginm.Blueprint.Get | ginm.go:159-174 | an empty id answers 404 with no store call; otherwise one lookup, answering 200 with the stored document or 400 when it is missing |
| Store.Collection.UpdateId | ginm.go:196-200 | a replacement succeeds iff the document exists and the identifier is kept, and then the document becomes the record's fields; otherwise nothing changes |
| Ginm.Blueprint.Update | ginm.go:176-211 | an empty id or a bind failure answers 404 with the store unchanged; otherwise PreUpdate runs, then the replacement; a failed replacement answers 400 with the store unchanged; a successful one makes the stored document the hooked body, runs PostUpdate, re-reads and answers 201 with the stored document |
| Store.SetFields | ginm.go:239 | `$set` gives a document whose keys are the old ones plus the body's; the body's values win; every other key keeps its value, and so does `_id` |
| Store.SetFieldsIdempotent | ginm.go:239 | applying the same `$set` twice is applying it once |
| Store.SetFieldsCompose | ginm.go:239 | two `$set`s in a row are one `$set` of their union, the later winning |
| Store.Collection.SetId | ginm.go:239-243 | a `$set` succeeds iff the document exists and the body does not change its `_id`, and then only that document changes |
| Ginm.Blueprint.Patch | ginm.go:213-257 | an empty id answers 404 with no store call; a missing document answers 404 and a bind failure 400, both with the store unchanged; otherwise PreUpdate runs on the stored record, the body's fields are `$set` with every other key and every other document unchanged, the document is re-read, PostUpdate runs on it and the answer is 201 with the result |
| Store.Collection.RemoveId | ginm.go:266 | a removal succeeds iff the document exists, and afterwards that identifier and only it is gone |
| Ginm.Blueprint.Delete | ginm.go:259-273 | an empty id answers 404 with no store call; otherwise one removal, with no hook, answering 204 when the document existed and 400 when it did not; only that identifier leaves the store |
| Walkthrough.AssignId | ginm_test.go:39-42 | the test's PreCreate hook sets the identifier, keeps the fields and returns no error |
| Walkthrough.EditKeepsContent | ginm_test.go:133-140 | patching the title replaces the title and keeps the content (the flat half of the test's patch) |
| Walkthrough.PlainListing | ginm_test.go:98 | a listing without parameters has no filter, no skip, no cap and no sort, so its page is every match |
| Walkthrough.CreateListRead | ginm_test.go:93-130 | on an empty collection, create, list and read answer 201, 200 and 200, and the listing holds exactly the article under its hook-assigned identifier |
| Walkthrough.EditRemove | ginm_test.go:132-167 | patching the title, replacing with an identifier-less body and deleting answer 201, 201 and 204; the patch answers the edited article and the collection ends empty |
| Walkthrough.ArticleLifecycle | ginm_test.go:82-173 | the test's seven requests answer 201, 200, 200, 201, 201, 204 and 200; the first listing holds the article and the last one is empty |

## Left out

- The session middleware (`middleware.go`): it copies an mgo session into
  each request and closes it afterwards. That is resource lifetime and I/O,
  so `Blueprint.coll` becomes the `Collection` a handler is given.
- gin's HTTP machinery: routing by path, path joining and cleaning, JSON
  decoding and encoding, and `AbortWithError`. A bound body is an `Option`
  input, and a response is a status plus a body.
- Ginm.Blueprint.Update: on a bind failure the model answers 404 because the
  handler asks for it; gin's `BindJSON` has by then already aborted the
  request with 400.
- Reflection: `reflect.New` and `SliceOf` become one generic `Record` type,
  and `Type.Name()` is the `GoType` name.
- Ginm.Lower: it models `strings.ToLower` on ASCII letters only; other
  characters are kept unchanged.
- The inflector (`inflector.Pluralize`) is an external library, so it is a
  function parameter of `Routes`.
- BSON encoding and ObjectId: identifiers are strings, and values are a JSON
  value tree.
- Dotted `$set` paths such as `tag.1` or `author.name`: `$set` replaces
  top-level fields only.
- The store's filter matching and sort order: `List` takes the driver's query
  as a parameter `find(filter, sort)`, which returns the ordered matches or
  `None` on a driver error. Skip and limit are then applied by
  `Query.Page`. The driver's conversion of skip and limit to 32 bits is not
  modelled.
- Ginm.Blueprint.List: the response body is the page as a sequence; JSON's
  `null` versus `[]` for an empty result is not distinguished.
- mgo's `Query.Sort` is not part of this model; `Query.SortPanics` restates
  its rule for an empty field name (after an optional `$kind:` prefix and a
  `+` or `-`). The resulting panic is answered 500, as gin's recovery
  middleware does in the test's server (`ginm_test.go:47`); a server without
  that middleware would drop the connection instead.
- Walkthrough.ArticleLifecycle: the test's `bson.ObjectId` identifier,
  assigned by its PreCreate hook (`ginm_test.go:29`, `40`), is replaced by the
  string `ArticleId`. With the real types the `:id` parameter is the hex
  string, which `FindId`, `UpdateId` and `RemoveId` (`ginm.go:168`, `196`,
  `223`, `266`) compare with the stored ObjectId and never match; the model
  states the string-identifier run only. The two listings use a driver
  stand-in that answers the unfiltered query with the one stored article,
  since the driver's matching is a parameter of `List`. The test's dotted
  patch keys (`tag.1`, `author.name`) are left out with dotted `$set` paths.
- Transport and server failures of individual store calls: the model's store
  fails only for the reasons stated in `Store.Collection`. Two examples are a
  duplicate identifier on insert and a missing document on update.
- Ginm.Blueprint.Update and Ginm.Blueprint.Patch: the 400 after a failed
  re-read cannot happen in this sequential model, because the document was
  just written. The branch is kept as in the code.
- Concurrency: each handler runs as one step on the map. The non-atomic
  read-then-`$set` in Patch is therefore not captured.
- Ginm.Blueprint.Patch: `PostUpdate()` is called with no argument, while the
  interface requires one (`iterface.go:24`). The hook call is recorded and its
  result is the answered record, but the argument is not modelled.
- Hook errors: every hook's error result is ignored by the code, and so by
  the model. `PreDelete` and `PostDelete` are declared but never called.
- Older MongoDB servers rejecting an empty `$set` document are not modelled:
  an empty patch succeeds and changes nothing.
