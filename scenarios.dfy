/**
 * Request sequences against freshly seeded stores, derived from the handler
 * contracts alone.
 */
module Scenarios {

  import opened Wrappers
  import opened Json
  import IdSeq
  import Library
  import Users

  /**
   * Books: create, delete a seed, create again. The second create gets a new
   * id, not the deleted one, and the survivors keep their order.
   */
  method BookIdsNeverReused() returns (first: Option<Library.Book>, second: Option<Library.Book>, ids: seq<int>)
    ensures first == Some(Library.Book(3, "C", "Z"))
    ensures second == Some(Library.Book(4, "D", "W"))
    ensures ids == [2, 3, 4]
  {
    var store := new Library.BookStore();
    var _, c := store.Create(Some(map["title" := Str("C"), "author" := Str("Z")]));
    var _, _ := store.Delete(1);
    var _, d := store.Create(Some(map["title" := Str("D"), "author" := Str("W")]));
    first, second := c, d;
    ids := IdSeq.Ids(store.books, Library.BookId);
  }

  /**
   * Books: a title that is not a string is refused only after the counter has
   * moved, so the next successful create skips id 3.
   */
  method BookIdConsumedByBadTitle() returns (refused: int, next: Option<Library.Book>, count: nat)
    ensures refused == 400
    ensures next == Some(Library.Book(4, "D", "W"))
    ensures count == 3
  {
    var store := new Library.BookStore();
    var s, _ := store.Create(Some(map["title" := Num(7), "author" := Str("Z")]));
    var _, d := store.Create(Some(map["title" := Str("D"), "author" := Str("W")]));
    refused, next, count := s, d, |store.books|;
  }

  /** Books: an empty body is refused and the collection is as seeded. */
  method BookEmptyBodyRefused() returns (status: int, ids: seq<int>)
    ensures status == 400
    ensures ids == [1, 2]
  {
    var store := new Library.BookStore();
    var s, _ := store.Create(Some(map[]));
    status := s;
    ids := IdSeq.Ids(store.books, Library.BookId);
  }

  /** Users: after the user with the largest id is deleted, the next create gets that id again. */
  method UserIdReused() returns (deleted: int, created: Option<Users.User>)
    ensures deleted == 204
    ensures created == Some(Users.User(2, "Ann", "ann@example.com"))
  {
    var store := new Users.UserStore();
    deleted := store.Delete(2);
    assert store.users == [Users.User(1, "John Doe", "john.doe@example.com")];
    var _, u := store.Create(Some(map["name" := Str("Ann"), "email" := Str("ann@example.com")]));
    created := u;
  }

  /** Users: a string name followed by a non-string email is written before the 400. */
  method UserHalfWrittenUpdate() returns (status: int, user: Option<Users.User>)
    ensures status == 400
    ensures user == Some(Users.User(1, "Jo", "john.doe@example.com"))
  {
    var store := new Users.UserStore();
    var s, _ := store.Update(1, Some(map["name" := Str("Jo"), "email" := Other]));
    status := s;
    var _, u := store.Get(1);
    user := u;
  }
}
