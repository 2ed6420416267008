/**
 * The book service: a process-wide vector of books and an id counter, and the
 * logic behind `GET`/`POST /books` and `GET`/`PUT`/`DELETE /books/<int>`.
 * The globals become the fields of one `BookStore` object; each handler becomes
 * a method that returns the HTTP status with the record it reports, if any.
 */
module Library {

  import opened Wrappers
  import opened Json
  import opened IdSeq

  datatype Book = Book(id: int, title: string, author: string)

  /** The id of a book, the key every lookup compares. */
  function BookId(r: Book): int
  {
    r.id
  }

  /** The JSON object the list handler builds for one book. */
  function BookJson(b: Book): (o: Object)
    ensures o.Keys == {"id", "title", "author"}
    ensures o["id"] == Num(b.id) && o["title"] == Str(b.title) && o["author"] == Str(b.author)
  {
    map["id" := Num(b.id), "title" := Str(b.title), "author" := Str(b.author)]
  }

  class BookStore {
    var books: seq<Book>
    var nextId: int
    /** Every id the store has ever handed out, including consumed ones that were never stored. */
    ghost var issued: set<int>

    /**
     * Ids are increasing along the vector (so pairwise distinct), every stored
     * id was issued, and the counter is above every id ever issued.
     */
    ghost predicate Valid()
      reads this
    {
      && Increasing(Ids(books, BookId))
      && (forall i :: 0 <= i < |books| ==> books[i].id in issued)
      && (forall x :: x in issued ==> x < nextId)
    }

    /** The seed collection the program starts with. */
    constructor ()
      ensures Valid()
      ensures books == [Book(1, "The Hitchhiker's Guide to the Galaxy", "Douglas Adams"),
                        Book(2, "Pride and Prejudice", "Jane Austen")]
      ensures nextId == 3 && issued == {1, 2}
    {
      books := [Book(1, "The Hitchhiker's Guide to the Galaxy", "Douglas Adams"),
                Book(2, "Pride and Prejudice", "Jane Austen")];
      nextId := 3;
      issued := {1, 2};
    }

    /** `GET /books`: one object per book, in vector order, with the book's current fields. */
    method List() returns (status: int, listing: seq<Object>)
      ensures status == 200
      ensures |listing| == |books|
      ensures forall i :: 0 <= i < |books| ==>
        && listing[i].Keys == {"id", "title", "author"}
        && listing[i]["id"] == Num(books[i].id)
        && listing[i]["title"] == Str(books[i].title)
        && listing[i]["author"] == Str(books[i].author)
    {
      status, listing := 200, [];
      for i := 0 to |books|
        invariant |listing| == i
        invariant forall k :: 0 <= k < i ==> listing[k] == BookJson(books[k])
      {
        listing := listing + [BookJson(books[i])];
      }
    }

    /** The `find_if` the `/books/<int>` handler runs before dispatching on the method. */
    method FindIndex(bookId: int) returns (r: Option<nat>)
      ensures r == IndexOf(Ids(books, BookId), bookId)
    {
      var i := 0;
      while i < |books|
        invariant 0 <= i <= |books|
        invariant forall j :: 0 <= j < i ==> books[j].id != bookId
      {
        if books[i].id == bookId {
          return Some(i);
        }
        i := i + 1;
      }
      return None;
    }

    /** `GET /books/<int>`: the first book with that id, or 404. */
    method Get(bookId: int) returns (status: int, book: Option<Book>)
      ensures (match IndexOf(Ids(books, BookId), bookId)
        case None => status == 404 && book == None
        case Some(i) => status == 200 && book == Some(books[i]))
    {
      var found := FindIndex(bookId);
      if found.None? {
        return 404, None;
      }
      return 200, Some(books[found.value]);
    }

    /**
     * `POST /books`. An unparsable body or one without both fields is refused
     * with nothing changed. Otherwise the counter is consumed first, and only
     * then are the fields converted to strings: a field that is not a string
     * raises, giving 400 with the id used up and no book appended.
     */
    method Create(body: Option<Object>) returns (status: int, created: Option<Book>)
      requires Valid()
      modifies this
      ensures Valid()
      ensures created.Some? <==> status == 201
      ensures status == 201 || status == 400
      ensures (body.None? || "title" !in body.value || "author" !in body.value) ==>
        books == old(books) && nextId == old(nextId) && issued == old(issued) && status == 400
      ensures (body.Some? && "title" in body.value && "author" in body.value) ==>
        && nextId == old(nextId) + 1
        && issued == old(issued) + {old(nextId)}
        && (var o := body.value;
            if NotString(o, "title") || NotString(o, "author") then
              status == 400 && books == old(books)
            else
              && created == Some(Book(old(nextId), o["title"].s, o["author"].s))
              && books == old(books) + [created.value])
      ensures created.Some? ==> created.value.id !in old(issued)
    {
      if body.None? {
        return 400, None;
      }
      var o := body.value;
      if "title" !in o || "author" !in o {
        return 400, None;
      }
      var id := nextId;
      nextId := nextId + 1;
      issued := issued + {id};
      if !o["title"].Str? {
        return 400, None;
      }
      var title := o["title"].s;
      if !o["author"].Str? {
        return 400, None;
      }
      var b := Book(id, title, o["author"].s);
      assert Ids(books + [b], BookId) == Ids(books, BookId) + [id];
      IncreasingAppend(Ids(books, BookId), id);
      books := books + [b];
      return 201, Some(b);
    }

    /**
     * `PUT /books/<int>`. The title is written (if present) before the author
     * is converted, so a string title with a non-string author leaves the new
     * title in place and answers 400. The id and every other book are untouched.
     */
    method Update(bookId: int, body: Option<Object>) returns (status: int, book: Option<Book>)
      requires Valid()
      modifies this
      ensures Valid()
      ensures nextId == old(nextId) && issued == old(issued)
      ensures (match old(IndexOf(Ids(books, BookId), bookId))
        case None => status == 404 && book == None && books == old(books)
        case Some(i) =>
          if body.None? then status == 400 && book == None && books == old(books)
          else
            var o, was := body.value, old(books[i]);
            var ok := !NotString(o, "title") && !NotString(o, "author");
            && books == old(books)[i := Book(was.id,
                                             Overwrite(o, "title", was.title),
                                             if NotString(o, "title") then was.author
                                             else Overwrite(o, "author", was.author))]
            && status == (if ok then 200 else 400)
            && book == (if ok then Some(books[i]) else None))
    {
      var found := FindIndex(bookId);
      if found.None? {
        return 404, None;
      }
      var i := found.value;
      if body.None? {
        return 400, None;
      }
      var o := body.value;
      ghost var ids := Ids(books, BookId);
      if "title" in o {
        if !o["title"].Str? {
          return 400, None;
        }
        books := books[i := books[i].(title := o["title"].s)];
      }
      if "author" in o {
        if !o["author"].Str? {
          assert Ids(books, BookId) == ids;
          return 400, None;
        }
        books := books[i := books[i].(author := o["author"].s)];
      }
      assert Ids(books, BookId) == ids;
      return 200, Some(books[i]);
    }

    /**
     * `DELETE /books/<int>`: erases the matching book, keeping the order of the
     * rest; afterwards no book has that id, so a get, update or delete of it is 404.
     */
    method Delete(bookId: int) returns (status: int, deleted: Option<int>)
      requires Valid()
      modifies this
      ensures Valid()
      ensures nextId == old(nextId) && issued == old(issued)
      ensures (match old(IndexOf(Ids(books, BookId), bookId))
        case None => status == 404 && deleted == None && books == old(books)
        case Some(i) => status == 200 && deleted == Some(bookId) && books == old(books[..i] + books[i + 1..]))
      ensures IndexOf(Ids(books, BookId), bookId).None?
    {
      var found := FindIndex(bookId);
      if found.None? {
        return 404, None;
      }
      var i := found.value;
      assert Ids(books[..i] + books[i + 1..], BookId) == Ids(books, BookId)[..i] + Ids(books, BookId)[i + 1..];
      IncreasingRemove(Ids(books, BookId), i);
      books := books[..i] + books[i + 1..];
      return 200, Some(bookId);
    }
  }
}
