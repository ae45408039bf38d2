/**
 * The five `/api/cars` routes of the mock server, each one request: load the data file,
 * compute, save when the route writes, respond. The data file is the store's state; a read
 * that fails yields no records, a write that fails either leaves the file alone or leaves it
 * truncated, and in every case the route answers as if all went well.
 */
module CarsApi {
  import opened Wrappers
  import opened Json
  import opened Pagination
  import opened Records

  /** An HTTP status and the JSON body sent with it. */
  datatype Response = Response(status: int, body: Value)

  /**
   * How a `writeFileSync` ends: the data is written; the file could not be opened, so it is
   * untouched; or the file was opened (which truncates it) and the write then failed, leaving
   * an empty or partial file that no longer parses.
   */
  datatype WriteOutcome = Written | NotOpened | Truncated

  /** The records a later read sees after writing `data` over a file that held `before`. */
  function AfterWrite(before: seq<Record>, data: seq<Record>, outcome: WriteOutcome): seq<Record>
  {
    match outcome
    case Written => data
    case NotOpened => before
    case Truncated => []
  }

  /** The 404 every route answers when the id matches no record. */
  function NotFound(): Response
  {
    Response(404, Obj(map["message" := Str("User not found")]))
  }

  /** The `{pagination, data}` body of a listing. */
  function PageBody(p: Page<Record>): Value
  {
    Obj(map[
      "pagination" := Obj(map[
        "currentPage" := Num(p.pagination.currentPage),
        "totalPages" := Num(p.pagination.totalPages),
        "totalItems" := Num(p.pagination.totalItems),
        "itemsPerPage" := Num(p.pagination.itemsPerPage)]),
      "data" := Arr(seq(|p.data|, k requires 0 <= k < |p.data| => Obj(p.data[k])))])
  }

  function Message(text: string): map<string, Value>
  {
    map["message" := Str(text)]
  }

  class CarsStore {
    /** The records the data file holds, as parsing it gives them. */
    var contents: seq<Record>
    /** Whether the data file can be read and parsed. */
    var readable: bool

    constructor (contents: seq<Record>, readable: bool)
      ensures this.contents == contents && this.readable == readable
    {
      this.contents := contents;
      this.readable := readable;
    }

    /** `readData()`: the stored records, or none when the file cannot be read or parsed. */
    function Load(): (users: seq<Record>)
      reads this
      ensures readable ==> users == contents
      ensures !readable ==> users == []
    {
      if readable then contents else []
    }

    /**
     * `writeData(data)`, with `outcome` the way the write on disk ended; a failure is not
     * reported. A good write leaves the file holding exactly `data`; a write that could not
     * open the file changes nothing; a write that failed after opening leaves a truncated
     * file that the next read cannot parse.
     */
    method Save(data: seq<Record>, outcome: WriteOutcome)
      modifies this
      ensures outcome == Written ==> readable && contents == data
      ensures outcome == NotOpened ==> unchanged(this)
      ensures outcome == Truncated ==> !readable
      ensures Load() == AfterWrite(old(Load()), data, outcome)
    {
      match outcome
      case Written => contents, readable := data, true;
      case NotOpened =>
      case Truncated => contents, readable := [], false;
    }

    /** `GET /api/cars`: one page of the collection with its metadata; never writes. */
    method List(pageParam: Option<int>, limitParam: Option<int>) returns (resp: Response)
      ensures resp.status == 200
      ensures resp.body == PageBody(Paginate(Load(), pageParam, limitParam))
    {
      var users := Load();
      var page := Paginate(users, pageParam, limitParam);
      resp := Response(200, PageBody(page));
    }

    /**
     * `GET /api/cars/:id`: the first record whose id is the requested one, or a 404 when
     * there is none; never writes.
     */
    method Get(id: string) returns (resp: Response)
      ensures var users, i := Load(), FindIndex(Load(), id);
        && (i == -1 ==> resp == NotFound())
        && (i != -1 ==> resp == Response(200, Obj(users[i])))
    {
      var users := Load();
      var user := Find(users, id);
      FindIsFirstMatch(users, id);
      if user.Some? {
        resp := Response(200, Obj(user.value));
      } else {
        resp := NotFound();
      }
    }

    /**
     * `POST /api/cars`: the body, with its `id` set to the generated id, is appended to the
     * collection and saved; the route always writes and answers 201 with that record.
     */
    method Create(body: Record, newId: string, outcome: WriteOutcome) returns (resp: Response)
      modifies this
      ensures var created := WithId(body, newId);
        && resp == Response(201, Obj(Message("User created successfully")["user" := Obj(created)]))
        && Load() == AfterWrite(old(Load()), old(Load()) + [created], outcome)
      ensures outcome == NotOpened ==> unchanged(this)
    {
      var users := Load();
      var newUser := WithId(body, newId);
      users := users + [newUser];
      Save(users, outcome);
      resp := Response(201, Obj(Message("User created successfully")["user" := Obj(newUser)]));
    }

    /**
     * `PUT /api/cars/:id`: the first matching record is replaced by itself overlaid with the
     * body and the collection is saved; every other record stays where and as it was. With
     * no match the route answers 404 and writes nothing.
     */
    method Update(id: string, body: Record, outcome: WriteOutcome) returns (resp: Response, wrote: bool)
      modifies this
      ensures wrote <==> !Absent(old(Load()), id)
      ensures !wrote ==> resp == NotFound() && unchanged(this)
      ensures wrote ==>
        var users, i := old(Load()), FindIndex(old(Load()), id);
        var updated := Merge(users[i], body);
        && resp == Response(200, Obj(Message("User with ID " + id + " updated successfully")["updatedUser" := Obj(updated)]))
        && (outcome == Written ==>
              && |Load()| == |users|
              && Load()[i] == updated
              && forall j :: 0 <= j < |users| && j != i ==> Load()[j] == users[j])
        && (outcome == NotOpened ==> unchanged(this))
        && (outcome == Truncated ==> Load() == [])
    {
      var users := Load();
      var userIndex := FindIndex(users, id);
      if userIndex != -1 {
        users := users[userIndex := Merge(users[userIndex], body)];
        Save(users, outcome);
        wrote := true;
        resp := Response(200, Obj(Message("User with ID " + id + " updated successfully")["updatedUser" := Obj(users[userIndex])]));
      } else {
        wrote := false;
        resp := NotFound();
      }
    }

    /**
     * `DELETE /api/cars/:id`: every record with the id is removed and the rest saved in
     * order; when none had it the route answers 404 and writes nothing.
     */
    method Delete(id: string, outcome: WriteOutcome) returns (resp: Response, wrote: bool)
      modifies this
      ensures wrote <==> !Absent(old(Load()), id)
      ensures !wrote ==> resp == NotFound() && unchanged(this)
      ensures wrote ==>
        && resp == Response(200, Obj(Message("User with ID " + id + " deleted successfully")))
        && Load() == AfterWrite(old(Load()), Without(old(Load()), id), outcome)
      ensures outcome == NotOpened ==> unchanged(this)
    {
      var users := Load();
      var filteredUsers := Without(users, id);
      if |filteredUsers| != |users| {
        Save(filteredUsers, outcome);
        wrote := true;
        resp := Response(200, Obj(Message("User with ID " + id + " deleted successfully")));
      } else {
        wrote := false;
        resp := NotFound();
      }
    }
  }

  /**
   * An empty collection, one create of `{"make": "Toyota"}`, then a listing without
   * parameters: the first page holds just the created car under the generated id.
   */
  method CreateThenList(newId: string)
  {
    var store := new CarsStore([], true);
    var toyota := map["make" := Str("Toyota")];
    var created := store.Create(toyota, newId, Written);
    var car := map["make" := Str("Toyota"), "id" := Str(newId)];
    assert WithId(toyota, newId) == car;
    assert created == Response(201, Obj(map["message" := Str("User created successfully"), "user" := Obj(car)]));
    assert store.Load() == [car];
    var listed := store.List(None, None);
    var page := Paginate([car], None, None);
    assert page == Page(PageInfo(1, 1, 1, 10), [car]);
    assert seq(|page.data|, k requires 0 <= k < |page.data| => Obj(page.data[k])) == [Obj(car)];
    assert listed.body == PageBody(page);
    assert listed == Response(200, Obj(map[
      "pagination" := Obj(map["currentPage" := Num(1), "totalPages" := Num(1), "totalItems" := Num(1), "itemsPerPage" := Num(10)]),
      "data" := Arr([Obj(car)])]));
    var fetched := store.Get(newId);
    assert fetched == Response(200, Obj(car));
  }
}
