/**
 * The user service: a process-wide vector of users and the logic of the five
 * `/users` handlers. Unlike the book service there is no counter: a new id is
 * one more than the largest id present, so an id can be handed out again once
 * the user holding the largest id is deleted.
 */
module Users {

  import opened Wrappers
  import opened Json
  import opened IdSeq

  datatype User = User(id: int, name: string, email: string)

  /** The id of a user, the key every lookup compares. */
  function UserId(r: User): int
  {
    r.id
  }

  /** `User::from_json`: reads the three fields; a missing or mistyped one is a failure. */
  function FromJson(j: Object): (r: Option<User>)
    ensures r.Some? <==>
      "id" in j && j["id"].Num? && "name" in j && j["name"].Str? && "email" in j && j["email"].Str?
    ensures r.Some? ==> r.value.id == j["id"].n && r.value.name == j["name"].s && r.value.email == j["email"].s
  {
    if "id" in j && j["id"].Num? && "name" in j && j["name"].Str? && "email" in j && j["email"].Str?
    then Some(User(j["id"].n, j["name"].s, j["email"].s))
    else None
  }

  /** `User::to_json`: an object that `from_json` reads back as the same user. */
  function ToJson(u: User): (j: Object)
    ensures j.Keys == {"id", "name", "email"}
    ensures FromJson(j) == Some(u)
  {
    map["id" := Num(u.id), "name" := Str(u.name), "email" := Str(u.email)]
  }

  /**
   * The other direction: an object `from_json` accepts is the `to_json` of the
   * user it yields, up to fields other than the three it reads.
   */
  lemma FromJsonThenToJson(j: Object)
    requires FromJson(j).Some?
    ensures ToJson(FromJson(j).value) == j - (j.Keys - {"id", "name", "email"})
  {
  }

  /** `get_next_id`: 1 for an empty vector, otherwise the largest id plus one. */
  function NextId(users: seq<User>): (r: int)
    ensures users == [] ==> r == 1
    ensures forall i :: 0 <= i < |users| ==> users[i].id < r
    ensures users != [] ==> exists i :: 0 <= i < |users| && users[i].id == r - 1
  {
    if |users| == 0 then 1 else MaxId(Ids(users, UserId)) + 1
  }

  /**
   * Deleting the user with the largest id brings the next id down to at most
   * that id: its id (or a smaller one) is handed out again; exactly that id
   * when the user below it holds the id one less.
   */
  lemma NextIdAfterDeletingMax(users: seq<User>)
    requires Increasing(Ids(users, UserId)) && |users| > 0
    requires forall i :: 0 <= i < |users| ==> users[i].id >= 1
    ensures NextId(users[..|users| - 1]) <= users[|users| - 1].id
    ensures |users| > 1 && users[|users| - 2].id == users[|users| - 1].id - 1 ==>
      NextId(users[..|users| - 1]) == users[|users| - 1].id
  {
  }

  class UserStore {
    var users: seq<User>

    /** Ids are positive and increasing along the vector, so pairwise distinct. */
    ghost predicate Valid()
      reads this
    {
      && Increasing(Ids(users, UserId))
      && (forall i :: 0 <= i < |users| ==> users[i].id >= 1)
    }

    /** The seed collection the program starts with. */
    constructor ()
      ensures Valid()
      ensures users == [User(1, "John Doe", "john.doe@example.com"),
                        User(2, "Jane Doe", "jane.doe@example.com")]
    {
      users := [User(1, "John Doe", "john.doe@example.com"),
                User(2, "Jane Doe", "jane.doe@example.com")];
    }

    /** `GET /users`: the `to_json` of every user, in vector order. */
    method List() returns (status: int, listing: seq<Object>)
      ensures status == 200
      ensures |listing| == |users|
      ensures forall i :: 0 <= i < |users| ==> listing[i] == ToJson(users[i])
      ensures forall i :: 0 <= i < |users| ==> FromJson(listing[i]) == Some(users[i])
    {
      status, listing := 200, [];
      for i := 0 to |users|
        invariant |listing| == i
        invariant forall k :: 0 <= k < i ==> listing[k] == ToJson(users[k])
      {
        listing := listing + [ToJson(users[i])];
      }
    }

    /**
     * `find_user_by_id`: the position of the first user with that id (the
     * element the returned pointer designates), or `None` for the null pointer.
     */
    method FindUserById(id: int) returns (r: Option<nat>)
      ensures r == IndexOf(Ids(users, UserId), id)
    {
      var i := 0;
      while i < |users|
        invariant 0 <= i <= |users|
        invariant forall j :: 0 <= j < i ==> users[j].id != id
      {
        if users[i].id == id {
          return Some(i);
        }
        i := i + 1;
      }
      return None;
    }

    /** `GET /users/{id}`: the first user with that id, or 404. */
    method Get(id: int) returns (status: int, user: Option<User>)
      ensures (match IndexOf(Ids(users, UserId), id)
        case None => status == 404 && user == None
        case Some(i) => status == 200 && user == Some(users[i]))
    {
      var found := FindUserById(id);
      if found.None? {
        return 404, None;
      }
      return 200, Some(users[found.value]);
    }

    /**
     * `POST /users`. A body that does not parse, lacks `name` or `email`, or
     * holds a non-string in either is refused with 400 and nothing changes;
     * otherwise one user with id `get_next_id()` is appended.
     */
    method Create(body: Option<Object>) returns (status: int, created: Option<User>)
      requires Valid()
      modifies this
      ensures Valid()
      ensures created.Some? <==> status == 201
      ensures status == 201 || status == 400
      ensures status == 201 <==>
        body.Some? && "name" in body.value && "email" in body.value &&
        !NotString(body.value, "name") && !NotString(body.value, "email")
      ensures status == 400 ==> users == old(users)
      ensures status == 201 ==>
        && created == Some(User(NextId(old(users)), body.value["name"].s, body.value["email"].s))
        && users == old(users) + [created.value]
    {
      if body.None? {
        return 400, None;
      }
      var o := body.value;
      if "name" !in o || "email" !in o {
        return 400, None;
      }
      var id := NextId(users);
      if !o["name"].Str? {
        return 400, None;
      }
      var name := o["name"].s;
      if !o["email"].Str? {
        return 400, None;
      }
      var u := User(id, name, o["email"].s);
      assert Ids(users + [u], UserId) == Ids(users, UserId) + [id];
      IncreasingAppend(Ids(users, UserId), id);
      users := users + [u];
      return 201, Some(u);
    }

    /**
     * `PUT /users/{id}`: 404 before the body is looked at; then `name` is
     * written (if present) through the found pointer before `email` is
     * converted, so a string name with a non-string email keeps the new name
     * and answers 400. The id and every other user are untouched.
     */
    method Update(id: int, body: Option<Object>) returns (status: int, user: Option<User>)
      requires Valid()
      modifies this
      ensures Valid()
      ensures (match old(IndexOf(Ids(users, UserId), id))
        case None => status == 404 && user == None && users == old(users)
        case Some(i) =>
          if body.None? then status == 400 && user == None && users == old(users)
          else
            var o, was := body.value, old(users[i]);
            var ok := !NotString(o, "name") && !NotString(o, "email");
            && users == old(users)[i := User(was.id,
                                             Overwrite(o, "name", was.name),
                                             if NotString(o, "name") then was.email
                                             else Overwrite(o, "email", was.email))]
            && status == (if ok then 200 else 400)
            && user == (if ok then Some(users[i]) else None))
    {
      var found := FindUserById(id);
      if found.None? {
        return 404, None;
      }
      var i := found.value;
      if body.None? {
        return 400, None;
      }
      var o := body.value;
      ghost var ids := Ids(users, UserId);
      if "name" in o {
        if !o["name"].Str? {
          return 400, None;
        }
        users := users[i := users[i].(name := o["name"].s)];
      }
      if "email" in o {
        if !o["email"].Str? {
          assert Ids(users, UserId) == ids;
          return 400, None;
        }
        users := users[i := users[i].(email := o["email"].s)];
      }
      assert Ids(users, UserId) == ids;
      return 200, Some(users[i]);
    }

    /**
     * `DELETE /users/{id}`: erases the matching user, keeping the order of the
     * rest, and answers 204; an absent id is 404 with nothing changed.
     */
    method Delete(id: int) returns (status: int)
      requires Valid()
      modifies this
      ensures Valid()
      ensures (match old(IndexOf(Ids(users, UserId), id))
        case None => status == 404 && users == old(users)
        case Some(i) => status == 204 && users == old(users[..i] + users[i + 1..]))
      ensures IndexOf(Ids(users, UserId), id).None?
    {
      var found := FindUserById(id);
      if found.None? {
        return 404;
      }
      var i := found.value;
      assert Ids(users[..i] + users[i + 1..], UserId) == Ids(users, UserId)[..i] + Ids(users, UserId)[i + 1..];
      IncreasingRemove(Ids(users, UserId), i);
      users := users[..i] + users[i + 1..];
      return 204;
    }
  }
}
