/**
 * What the REST handlers share once the framework and the database are
 * stripped away: request fields, JSON values and their truthiness, responses,
 * the database as a map from document id to record, and the meaning of
 * `Model.find(filter).sort(...)`.
 */
module Http {
  import opened Wrappers

  /** A document id as the database hands it out. */
  type Id = string

  /** A request field: `None` when the key is absent (`undefined`). */
  type Field = Option<string>

  /** JavaScript truthiness of a string field: present and not empty. */
  predicate Truthy(f: Field) {
    f.Some? && f.value != ""
  }

  /** A parsed JSON body value, with `Undefined` for a key the body does not carry. */
  datatype Json =
    | Undefined
    | Null
    | Bool(b: bool)
    | Num(n: int)
    | Str(s: string)
    | Arr(items: seq<Json>)
    | Obj(fields: map<string, Json>)

  /** JavaScript truthiness of a value: `undefined`, `null`, `false`, `0` and `""` are falsy. */
  predicate JsonTruthy(v: Json) {
    match v
    case Undefined => false
    case Null => false
    case Bool(b) => b
    case Num(n) => n != 0
    case Str(s) => s != ""
    case Arr(_) => true
    case Obj(_) => true
  }

  /** `typeof v === 'object'`: null, arrays and objects. */
  predicate IsObjectType(v: Json) {
    v.Null? || v.Arr? || v.Obj?
  }

  /** An image the upload middleware stored: its hosted URL (`path`) and public id (`filename`). */
  datatype Upload = Upload(path: string, filename: string)

  const OK: nat := 200
  const CREATED: nat := 201
  const BAD_REQUEST: nat := 400
  const NOT_FOUND: nat := 404
  const SERVER_ERROR: nat := 500

  /** What a handler sends: a JSON document, a `{ message }` or an `{ error }`. */
  datatype Response<T> =
    | Body(code: nat, value: T)
    | Message(code: nat, text: string)
    | Error(code: nat, error: string)

  /**
   * The outcome of one request: the response, the database afterwards, and
   * the image-host public ids destroyed on the way (an external effect).
   */
  datatype Handled<T, D> = Handled(response: Response<T>, db: D, destroyed: seq<string>)

  /**
   * `out` is what `find(filter).sort(order)` can return: each matching
   * record once, nothing else, in the requested order.
   */
  ghost predicate IsListing<R>(db: map<Id, R>, keep: R -> bool, inOrder: (R, R) -> bool, out: seq<Id>) {
    && (forall i :: 0 <= i < |out| ==> out[i] in db && keep(db[out[i]]))
    && (forall id :: id in db && keep(db[id]) ==> id in out)
    && (forall i, j :: 0 <= i < j < |out| ==> out[i] != out[j])
    && (forall i, j :: 0 <= i < j < |out| ==> inOrder(db[out[i]], db[out[j]]))
  }

  /**
   * When no two matching records can be placed either way round, the order
   * fixes the listing: two listings of the same query are the same sequence.
   */
  lemma {:induction false} ListingUnique<R>(db: map<Id, R>, keep: R -> bool, inOrder: (R, R) -> bool, a: seq<Id>, b: seq<Id>)
    requires forall x, y :: x in db && y in db && x != y && keep(db[x]) && keep(db[y]) ==>
      (inOrder(db[x], db[y]) <==> !inOrder(db[y], db[x]))
    requires IsListing(db, keep, inOrder, a) && IsListing(db, keep, inOrder, b)
    ensures a == b
    decreases |a|
  {
    if a != [] {
      assert b != [] by { assert a[0] in b; }
      assert a[0] == b[0];
      var db' := db - {a[0]};
      ListingTail(db, keep, inOrder, a);
      ListingTail(db, keep, inOrder, b);
      ListingUnique(db', keep, inOrder, a[1..], b[1..]);
    }
  }

  /** Dropping the first record of a listing lists the database without it. */
  lemma ListingTail<R>(db: map<Id, R>, keep: R -> bool, inOrder: (R, R) -> bool, out: seq<Id>)
    requires out != [] && IsListing(db, keep, inOrder, out)
    ensures IsListing(db - {out[0]}, keep, inOrder, out[1..])
  {
    var db' := db - {out[0]};
    forall id | id in db' && keep(db'[id]) ensures id in out[1..] {
      assert id in out && id != out[0];
    }
    forall i, j | 0 <= i < j < |out[1..]| ensures inOrder(db'[out[1..][i]], db'[out[1..][j]]) {
      assert out[1..][i] == out[i + 1] && out[1..][j] == out[j + 1];
    }
  }
}
