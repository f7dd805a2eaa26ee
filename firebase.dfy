/**
 * The remote services the client talks to, reduced to what the client relies on:
 * a signed-in user is an opaque handle with a stable uid, and the 'users'
 * collection is a keyed map of documents whose reads and writes may fail.
 * Each remote call is made once; a failure is passed back to the caller unchanged.
 */
module Firebase {
  import opened Options

  /** A field value of a stored document. `ServerTimestamp` is the sentinel a
      client writes in place of the server's clock. `Other` is a value the
      client only passes along and never inspects: a nested object such as a
      profile's `stats`, or a timestamp the server has already resolved, such
      as `createdAt`; `tag` tells such values apart. */
  datatype Value = Null | Str(s: string) | Bool(b: bool) | Num(n: int) | ServerTimestamp | Other(tag: string)

  /** A document (or a plain object on the client): field name to value. */
  type Record = map<string, Value>

  /** The signed-in user as the auth service reports it. */
  datatype User = User(uid: string)

  /** Outcome of a remote call. The error itself is opaque: every caller only logs it. */
  datatype Result<T> = Ok(value: T) | Err

  /** One call made on the document store, in the order it was made. */
  datatype Call = GetCall(uid: string) | SetCall(uid: string, data: Record, merge: bool)

  /** A merge-write: the fields supplied replace the stored ones, every other
      stored field is kept. */
  function MergeInto(stored: Record, data: Record): (r: Record)
    ensures r.Keys == stored.Keys + data.Keys
    ensures forall k :: k in data ==> r[k] == data[k]
    ensures forall k :: k in stored && k !in data ==> r[k] == stored[k]
  {
    stored + data
  }

  /** The 'users' collection, keyed by uid. */
  class Store {
    var docs: map<string, Record>
    var log: seq<Call>

    constructor (initial: map<string, Record>)
      ensures docs == initial && log == []
    {
      docs := initial;
      log := [];
    }

    /** Reads the document of `uid`: `None` when it does not exist. When the
        service fails (`fails`), the error is returned and nothing changes. */
    method Get(uid: string, fails: bool) returns (r: Result<Option<Record>>)
      modifies this
      ensures docs == old(docs)
      ensures log == old(log) + [GetCall(uid)]
      ensures fails ==> r == Err
      ensures !fails && uid in docs ==> r == Ok(Some(docs[uid]))
      ensures !fails && uid !in docs ==> r == Ok(None)
    {
      log := log + [GetCall(uid)];
      if fails {
        r := Err;
      } else if uid in docs {
        r := Ok(Some(docs[uid]));
      } else {
        r := Ok(None);
      }
    }

    /** Writes the document of `uid`. A plain write replaces the whole document;
        a merge-write keeps the stored fields it does not supply and creates the
        document when there is none. A failed write stores nothing. */
    method Set(uid: string, data: Record, merge: bool, fails: bool) returns (ok: bool)
      modifies this
      ensures ok == !fails
      ensures log == old(log) + [SetCall(uid, data, merge)]
      ensures fails ==> docs == old(docs)
      ensures !fails && !merge ==> docs == old(docs)[uid := data]
      ensures !fails && merge && uid in old(docs) ==> docs == old(docs)[uid := MergeInto(old(docs)[uid], data)]
      ensures !fails && merge && uid !in old(docs) ==> docs == old(docs)[uid := data]
    {
      log := log + [SetCall(uid, data, merge)];
      ok := !fails;
      if ok {
        if merge && uid in docs {
          docs := docs[uid := MergeInto(docs[uid], data)];
        } else {
          docs := docs[uid := data];
        }
      }
    }
  }
}
