# In-memory book and user services, modelled in Dafny

The repository runs two small HTTP services, each over one in-memory,
insertion-ordered collection. A book service (`src/library.cpp`) keeps a
vector of books `{id, title, author}` and an `int next_id` counter. A user
service (`src/users.cpp`) keeps a vector of users `{id, name, email}` and
computes each new id as the largest id present plus one. Each service offers
list, create, get by id, partial update by id and delete by id.

This project models the logic of those handlers. The HTTP routing and JSON
text are left to the collaborators they belong to.

- Each global vector becomes a `seq` field of one store object: `Library.BookStore` and `Users.UserStore`. The book counter is a field too.
- Each handler is a method. It takes the route's id or the parsed request body and returns the HTTP status, plus what the handler reports: a record (if any), the listing for `List`, or the deleted id for the book delete.
- A request body is `Option<Json.Object>`. `None` means `json::parse` raised. `Some(o)` is the top-level field map, and a field value is `Str`, `Num` (an integer) or `Other`. A body that parses to a non-object behaves like the empty map, because `contains` is false on non-objects.
- `find_if` and `find_user_by_id` become loop methods that return the position of the first match. That position stands for the iterator or pointer the handlers then write through.
- `IdSeq` holds the facts shared by both stores: the id projection `Ids`, the first-match search `IndexOf`, the maximum `MaxId` and the strictly-increasing-ids invariant `Increasing`.
- Each store's `Valid()` is kept by every handler. For the book store it says: ids increase along the vector, every stored id was issued, and the counter is above every id ever issued (the ghost set `issued`). So ids are pairwise distinct and never handed out twice. For the user store it says: ids increase along the vector and are positive.

Three behaviours of the code differ from what a reader of the services would expect of an id-keyed store. The model follows the code:

- **User ids are reused.** One would expect an id never to be handed out twice. `get_next_id` (users.cpp:42-48) is max + 1, so deleting the user with the largest id lets a later create get an id that was already used (`Users.NextIdAfterDeletingMax`, `Scenarios.UserIdReused`).
- **A rejected book create still uses up an id.** One would expect a rejected request to change nothing. In the braced initialiser at library.cpp:54-58, `next_id++` runs before `get<std::string>()`. So a present but non-string `title` or `author` advances the counter, no book is appended, and the exception becomes 400 at library.cpp:71-72 (`Library.BookStore.Create`, `Scenarios.BookIdConsumedByBadTitle`).
- **A rejected update can be half applied.** One would expect a 400 to leave the record as it was. In both PUT handlers (library.cpp:105-110, users.cpp:125-130), a string first field is written before a non-string second field raises, so the 400 leaves the first write in place (`Library.BookStore.Update`, `Users.UserStore.Update`, `Scenarios.UserHalfWrittenUpdate`). The user create handler converts both fields before it appends anything, so its failures change nothing.

The two services also differ from each other in their DELETE answers: book delete answers 200 and reports the id, while user delete answers 204.

## Model

| member | source | states |
|---|---|---|
| `IdSeq.IndexOf` | src/library.cpp:83-84 | the search result is the first position holding the id, and it is `None` exactly when no element holds it |
| `IdSeq.MaxId` | src/users.cpp:46-47 | the value `max_element` selects is at least every id and is one of the ids |
| `IdSeq.IncreasingAppend` | src/library.cpp:54-59 | appending an id above all present ids keeps ids strictly increasing |
| `IdSeq.IncreasingRemove` | src/library.cpp:128 | erasing one element keeps the survivors strictly increasing, and the erased id is no longer found |
| `Json.Overwrite` | src/library.cpp:105-110 | a field absent from the body keeps its value, a present string replaces it, and a present non-string keeps it (the conversion raises before the write) |
| `Library.BookStore.constructor` | src/library.cpp:17-23 | the seed is books 1 and 2 with counter 3, and it satisfies the store invariant |
| `Library.BookJson` | src/library.cpp:36-40 | the object built for a book has exactly the keys id, title and author, holding the book's id, title and author |
| `Library.BookStore.List` | src/library.cpp:34-43 | status 200 and one object per book, in vector order, with exactly the keys id, title and author holding that book's current values |
| `Library.BookStore.FindIndex` | src/library.cpp:83-84 | the loop returns the first position whose book has the id, or `None` when there is none |
| `Library.BookStore.Get` | src/library.cpp:83-98 | the first book with the id and 200, or 404 with no book when the id is absent |
| `Library.BookStore.Create` | src/library.cpp:45-74 | two cases leave books and counter unchanged and answer 400: no parse, or a missing title or author; with both keys present the counter rises by exactly 1; a non-string field then gives 400 with no book appended; otherwise exactly one book with the old counter as id is appended at the end and 201 is returned; a created id was never issued before; the invariant is kept |
| `Library.BookStore.Update` | src/library.cpp:99-125 | an absent id gives 404, and an unparsable body gives 400, both with nothing changed; otherwise only the found book changes: its id stays, the title is overwritten when present as a string, and the author likewise unless the title raised; 200 exactly when no present field is a non-string; the counter and other books are unchanged |
| `Library.BookStore.Delete` | src/library.cpp:126-135 | an absent id gives 404 with nothing changed; otherwise exactly the matching book is erased, the rest keep their order, and 200 reports the id; afterwards the id is not found, so get, update and delete on it answer 404; the counter is unchanged |
| `Users.ToJson` | src/users.cpp:17-23 | `to_json` yields exactly the keys id, name and email, and `from_json` of it gives back the same user |
| `Users.FromJson` | src/users.cpp:26-32 | `from_json` succeeds exactly when id is an integer and name and email are strings, and the user it yields carries those three values |
| `Users.FromJsonThenToJson` | src/users.cpp:26-32 | an object `from_json` accepts is the `to_json` of the user it yields, apart from extra keys it ignores |
| `Users.NextId` | src/users.cpp:42-48 | 1 on an empty vector; otherwise one more than some present id and greater than every present id |
| `Users.NextIdAfterDeletingMax` | src/users.cpp:42-48 | after the user with the largest id is erased, the next id is at most the erased id; it equals the erased id when the user below held the id one less |
| `Users.UserStore.constructor` | src/users.cpp:36-39 | the seed is users 1 and 2, and it satisfies the store invariant |
| `Users.UserStore.List` | src/users.cpp:67-72 | status 200 and the `to_json` of every user in vector order, each read back by `from_json` as that user |
| `Users.UserStore.FindUserById` | src/users.cpp:50-58 | the position of the first user with the id (the pointer's target), or `None` for the null pointer |
| `Users.UserStore.Get` | src/users.cpp:103-110 | the first user with the id and 200, or 404 with no user when the id is absent |
| `Users.UserStore.Create` | src/users.cpp:78-98 | 201 exactly when the body parses and has string name and email; then exactly one user with id `get_next_id()` is appended at the end; every 400 leaves the users unchanged; the invariant is kept |
| `Users.UserStore.Update` | src/users.cpp:115-136 | an absent id gives 404 before the body is examined; an unparsable body gives 400 with nothing changed; otherwise only the found user changes: its id stays, the name is overwritten when present as a string, and the email likewise unless the name raised; 200 exactly when no present field is a non-string |
| `Users.UserStore.Delete` | src/users.cpp:141-153 | an absent id gives 404 with nothing changed; otherwise exactly the matching user is erased, the rest keep their order, and 204 is returned; afterwards the id is not found |
| `Scenarios.BookIdsNeverReused` | src/library.cpp:54-59 | from the seed: a create gets id 3; then a delete of book 1; then a create gets id 4, not 1; the ids left are 2, 3, 4 in that order |
| `Scenarios.BookIdConsumedByBadTitle` | src/library.cpp:54-58 | a create with a numeric title answers 400, and the next good create gets id 4 |
| `Scenarios.BookEmptyBodyRefused` | src/library.cpp:49-51 | a create with an empty object answers 400, and the collection stays as seeded |
| `Scenarios.UserIdReused` | src/users.cpp:42-48 | from the seed: deleting user 2 answers 204, and the next create gets id 2 again |
| `Scenarios.UserHalfWrittenUpdate` | src/users.cpp:125-134 | an update with a string name and a non-string email answers 400, but the user keeps the new name |

## Left out

- Route matching, method dispatch and the 405 fallback (library.cpp:75, 137). These belong to the HTTP framework. Each handler is one method for one route and verb.
- The parsing of the `<int>` route parameter. It belongs to the HTTP framework, and the handlers receive an integer.
- `json::parse`, `dump` with its indentation, the response message strings and the exception texts. These belong to the JSON library. A parse is modelled only as "a field map or a failure", and a response only as a status code plus the record it carries. The book delete response carries the deleted id.
- The multithreaded server and the unsynchronised sharing of the globals between its worker threads (library.cpp:142, users.cpp:156). This is concurrency and I/O. Every handler is modelled as one atomic step.
- Console output (library.cpp:141).
- `src/main.cpp` is not part of this model. It only holds greeting routes.
- Library.BookStore.Create: does not model 32-bit signed overflow of `next_id++`, because it is undefined behaviour in C++; ids are unbounded integers.
- Users.NextId: does not model 32-bit overflow of max id + 1, because it is undefined behaviour in C++; ids are unbounded integers.
- Users.FromJson: `from_json` is modelled as failing on a missing key, where `operator[]` on a const object is undefined behaviour. It also accepts only an integer for `id`, while the JSON library would convert a boolean or a floating-point number too. `from_json` is never called by the handlers. `Users.FromJsonThenToJson` inherits these limits.
- The user DELETE handler runs its own `find_if` (users.cpp:142-143). It is modelled by a call to `FindUserById`, which performs the same search.
