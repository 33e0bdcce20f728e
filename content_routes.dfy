/** The decision rules of the `/content` REST handlers: a key-value store of site texts. */
module ContentRoutes {
  import opened Wrappers
  import opened Http
  import Text

  datatype ContentDoc = ContentDoc(value: Json, updatedAt: int)

  /** The content collection, keyed by its unique `key`. */
  type ContentDb = map<string, ContentDoc>

  /** `GET /` answers either one document or the whole key-to-value map. */
  datatype ContentReply = One(key: string, doc: ContentDoc) | All(values: map<string, Json>)

  // ---------------------------------------------------------------------
  // GET /
  // ---------------------------------------------------------------------

  /** `allContent.forEach(item => contentMap[item.key] = item.value)`. */
  method AllContent(db: ContentDb) returns (m: map<string, Json>)
    ensures m.Keys == db.Keys
    ensures forall k :: k in m ==> m[k] == db[k].value
  {
    m := map[];
    var rest := db.Keys;
    while rest != {}
      invariant rest <= db.Keys
      invariant m.Keys == db.Keys - rest
      invariant forall k :: k in m ==> m[k] == db[k].value
      decreases rest
    {
      var k :| k in rest;
      m := m[k := db[k].value];
      rest := rest - {k};
    }
  }

  /** `GET /`: with a `key`, that document or 404; without, every key with its value. */
  method Get(db: ContentDb, key: Field) returns (r: Response<ContentReply>)
    ensures Truthy(key) && key.value in db ==> r == Body(OK, One(key.value, db[key.value]))
    ensures Truthy(key) && key.value !in db ==> r == Error(NOT_FOUND, "Content not found")
    ensures !Truthy(key) ==>
      && r.Body? && r.code == OK && r.value.All?
      && r.value.values.Keys == db.Keys
      && forall k :: k in db ==> r.value.values[k] == db[k].value
  {
    if Truthy(key) {
      if key.value !in db {
        return Error(NOT_FOUND, "Content not found");
      }
      return Body(OK, One(key.value, db[key.value]));
    }
    var m := AllContent(db);
    r := Body(OK, All(m));
  }

  // ---------------------------------------------------------------------
  // PUT /
  // ---------------------------------------------------------------------

  datatype PutBody = PutBody(key: Field, value: Json)

  /**
   * `PUT /`: 400 and no change without a key or with no value at all; any
   * other value, falsy ones such as `0` or `""` included, is upserted.
   */
  function Put(db: ContentDb, body: PutBody, now: int): (r: Handled<(string, ContentDoc), ContentDb>)
    ensures r.destroyed == []
    ensures !Truthy(body.key) || body.value.Undefined? ==>
      r.response == Error(BAD_REQUEST, "Key and value are required") && r.db == db
    ensures Truthy(body.key) && !body.value.Undefined? ==>
      && r.db.Keys == db.Keys + {body.key.value}
      && r.db[body.key.value] == ContentDoc(body.value, now)
      && (forall k :: k in db && k != body.key.value ==> r.db[k] == db[k])
      && r.response == Body(OK, (body.key.value, ContentDoc(body.value, now)))
  {
    if !Truthy(body.key) || body.value.Undefined? then
      Handled(Error(BAD_REQUEST, "Key and value are required"), db, [])
    else
      var doc := ContentDoc(body.value, now);
      Handled(Body(OK, (body.key.value, doc)), db[body.key.value := doc], [])
  }

  /** Repeating the same `PUT` changes nothing more. */
  lemma PutIdempotent(db: ContentDb, body: PutBody, now: int)
    ensures Put(Put(db, body, now).db, body, now).db == Put(db, body, now).db
  {
  }

  /** Zero and the empty string are stored like any other value. */
  lemma PutAcceptsFalsyValues(db: ContentDb, key: string, now: int)
    requires key != ""
    ensures Put(db, PutBody(Some(key), Num(0)), now).response.code == OK
    ensures Put(db, PutBody(Some(key), Str("")), now).response.code == OK
    ensures Put(db, PutBody(Some(key), Null), now).response.code == OK
  {
  }

  // ---------------------------------------------------------------------
  // POST /bulk
  // ---------------------------------------------------------------------

  lemma NatToStringInjectiveAll()
    ensures forall m: nat, n: nat :: Text.NatToString(m) == Text.NatToString(n) ==> m == n
  {
    forall m: nat, n: nat | Text.NatToString(m) == Text.NatToString(n) ensures m == n {
      Text.NatToStringInjective(m, n);
    }
  }

  /** `k` is the decimal text of an index below `len`. */
  predicate IsIndexKey(k: string, len: nat) {
    exists i :: 0 <= i < len && k == Text.NatToString(i)
  }

  /** An array's elements keyed by their index text. */
  function IndexMap(items: seq<Json>): (m: map<string, Json>)
    ensures forall k :: k in m ==> IsIndexKey(k, |items|)
    ensures forall i :: 0 <= i < |items| ==> Text.NatToString(i) in m && m[Text.NatToString(i)] == items[i]
  {
    if items == [] then map[]
    else
      var n := |items| - 1;
      NatToStringInjectiveAll();
      IndexMap(items[..n])[Text.NatToString(n) := items[n]]
  }

  /** `Object.entries(body)`: an array's entries are keyed by index text. */
  function Entries(body: Json): (e: map<string, Json>)
    requires body.Arr? || body.Obj?
    ensures body.Obj? ==> e == body.fields
    ensures body.Arr? ==> forall k :: k in e ==> IsIndexKey(k, |body.items|)
    ensures body.Arr? ==> forall i :: 0 <= i < |body.items| ==>
      Text.NatToString(i) in e && e[Text.NatToString(i)] == body.items[i]
  {
    if body.Obj? then body.fields
    else
      IndexMap(body.items)
  }

  /**
   * `POST /bulk`: a falsy or non-object body is refused with 400. Any
   * object, arrays included, has each of its entries upserted; keys the
   * body does not name keep their documents.
   */
  function Bulk(db: ContentDb, body: Json, now: int): (r: Handled<ContentDoc, ContentDb>)
    ensures r.destroyed == []
    ensures !JsonTruthy(body) || !IsObjectType(body) ==>
      r.response == Error(BAD_REQUEST, "Invalid content data") && r.db == db
    ensures JsonTruthy(body) && IsObjectType(body) ==>
      && r.response == Message(OK, "Content updated successfully")
      && r.db.Keys == db.Keys + Entries(body).Keys
      && (forall k :: k in Entries(body) ==> r.db[k] == ContentDoc(Entries(body)[k], now))
      && (forall k :: k in db && k !in Entries(body) ==> r.db[k] == db[k])
  {
    if !JsonTruthy(body) || !IsObjectType(body) then
      Handled(Error(BAD_REQUEST, "Invalid content data"), db, [])
    else
      var e := Entries(body);
      Handled(Message(OK, "Content updated successfully"),
              db + map k | k in e :: ContentDoc(e[k], now), [])
  }

  /** A bulk body with one entry does what the single `PUT` of that entry does. */
  lemma BulkOfOneIsPut(db: ContentDb, key: string, value: Json, now: int)
    requires key != "" && !value.Undefined?
    ensures Bulk(db, Obj(map[key := value]), now).db == Put(db, PutBody(Some(key), value), now).db
  {
    var b := Bulk(db, Obj(map[key := value]), now).db;
    var p := Put(db, PutBody(Some(key), value), now).db;
    assert b.Keys == p.Keys;
  }

  /** A bulk array body upserts its elements under the keys "0", "1", and so on. */
  lemma BulkArrayUsesIndexKeys(db: ContentDb, items: seq<Json>, now: int, i: nat)
    requires i < |items|
    ensures Text.NatToString(0) == "0"
    ensures Bulk(db, Arr(items), now).db["0"] == ContentDoc(items[0], now)
    ensures Bulk(db, Arr(items), now).db[Text.NatToString(i)] == ContentDoc(items[i], now)
  {
    assert Text.NatToString(0) == "0";
  }
}
