/** The module-level `dataStore` dictionary of index.js and the four
    handlers that share it: `POST /api/data`, `GET /api/data/:key`,
    `POST /api/display-image` and `GET /api/image/:id`.  Generic entries
    live under their bare key, image records under `"image_" + id`, in one
    flat map, so the two kinds of write can see each other. */
module Store {
  import opened Values
  import opened Http
  import opened Decimal

  type Entries = map<string, Json>

  const ImagePrefix: string := "image_"

  /** The key under which the image with id `id` is stored. */
  function ImageKey(id: string): string {
    ImagePrefix + id
  }

  /** The body of a `/api/data` response: the key and its value. */
  datatype Entry = Entry(key: string, value: Json)

  /** The body of a `/api/display-image` response (the view URL is left out). */
  datatype ImageCreated = ImageCreated(imageId: string)

  const MissingKeyOrValue: string := "Both key and value are required"
  const MissingImageData: string := "Missing required parameter: data (base64 image)"
  const ImageNotFound: string := "Image not found"

  function NoDataFor(key: string): string {
    "No data found for key: " + key
  }

  /** `POST /api/data` accepts a request whose key is truthy and whose
      value is not `undefined` (any JSON value, even a falsy one, will do). */
  predicate ValidDataRequest(key: Option<string>, value: Option<Json>): (r: bool)
    ensures !r <==> key == None || key == Some("") || value == None
  {
    PresentString(key) && value.Some?
  }

  /** `POST /api/data` on store `m`: the response and the store afterwards.
      A rejected request changes nothing; an accepted one echoes the pair,
      binds the key to the value and leaves every other key as it was. */
  function DataPut(m: Entries, key: Option<string>, value: Option<Json>): (res: (Response<Entry>, Entries))
    ensures !ValidDataRequest(key, value) <==> res.0.BadRequest?
    ensures !ValidDataRequest(key, value) ==> res == (BadRequest(MissingKeyOrValue), m)
    ensures ValidDataRequest(key, value) ==>
              res.0 == Ok(201, Entry(key.value, value.value)) &&
              res.1.Keys == m.Keys + {key.value} && res.1[key.value] == value.value
    ensures forall k :: k in m && (key.Some? ==> k != key.value) ==> k in res.1 && res.1[k] == m[k]
  {
    if !ValidDataRequest(key, value) then (BadRequest(MissingKeyOrValue), m)
    else (Ok(201, Entry(key.value, value.value)), m[key.value := value.value])
  }

  /** `GET /api/data/:key`: found exactly when the key is bound. */
  function DataGet(m: Entries, key: string): (r: Response<Entry>)
    ensures r.Ok? <==> key in m
    ensures key in m ==> r == Ok(200, Entry(key, m[key]))
    ensures key !in m ==> r == NotFound(NoDataFor(key))
  {
    if key !in m then NotFound(NoDataFor(key)) else Ok(200, Entry(key, m[key]))
  }

  /** The record `POST /api/display-image` stores. */
  function ImageRecord(width: Option<Json>, height: Option<Json>, data: Json, timestamp: string): (r: Json)
    ensures r.JObj? && r.fields.Keys == {"width", "height", "data", "timestamp"}
    ensures Truthy(r) && Truthy(r.fields["width"]) && Truthy(r.fields["height"])
  {
    JObj(map["width" := OrJson(width, JStr("auto")),
             "height" := OrJson(height, JStr("auto")),
             "data" := data,
             "timestamp" := JStr(timestamp)])
  }

  /** A truthy width or height is kept and a missing or falsy one becomes
      `'auto'`; data and timestamp are kept unchanged. */
  lemma ImageRecordFields(width: Option<Json>, height: Option<Json>, data: Json, timestamp: string)
    ensures var rec := ImageRecord(width, height, data, timestamp);
      && rec.fields["width"] == (if Present(width) then width.value else JStr("auto"))
      && rec.fields["height"] == (if Present(height) then height.value else JStr("auto"))
      && rec.fields["data"] == data
      && rec.fields["timestamp"] == JStr(timestamp)
  {
  }

  /** `POST /api/display-image` at instant `now` (the value of `Date.now()`)
      with ISO timestamp `timestamp`.  Missing or falsy data is rejected and
      changes nothing; otherwise the id is the decimal rendering of `now`
      and exactly one key, `"image_" + id`, is (re)bound. */
  function ImagePut(m: Entries, now: nat, width: Option<Json>, height: Option<Json>,
                    data: Option<Json>, timestamp: string): (res: (Response<ImageCreated>, Entries))
    ensures !Present(data) <==> res.0.BadRequest?
    ensures !Present(data) ==> res == (BadRequest(MissingImageData), m)
    ensures Present(data) ==>
              var key := ImageKey(DecimalString(now));
              res.0 == Ok(200, ImageCreated(DecimalString(now))) &&
              res.1.Keys == m.Keys + {key} &&
              res.1[key] == ImageRecord(width, height, data.value, timestamp)
    ensures forall k :: k in m && k != ImageKey(DecimalString(now)) ==> k in res.1 && res.1[k] == m[k]
  {
    if !Present(data) then (BadRequest(MissingImageData), m)
    else
      var imageId := DecimalString(now);
      (Ok(200, ImageCreated(imageId)),
       m[ImageKey(imageId) := ImageRecord(width, height, data.value, timestamp)])
  }

  /** `GET /api/image/:id`: found exactly when `"image_" + id` is bound to a
      truthy value, whichever handler wrote it. */
  function ImageGet(m: Entries, id: string): (r: Response<Json>)
    ensures r.Ok? <==> ImageKey(id) in m && Truthy(m[ImageKey(id)])
    ensures r.Ok? ==> r == Ok(200, m[ImageKey(id)])
    ensures !r.Ok? ==> r == NotFound(ImageNotFound)
  {
    var imageData := if ImageKey(id) in m then Some(m[ImageKey(id)]) else None;
    if !Present(imageData) then NotFound(ImageNotFound) else Ok(200, imageData.value)
  }

  // ---------------------------------------------------------------------
  // Generic entries

  /** After an accepted write, reading the key gives the value back, and
      every other key reads as before. */
  lemma PutDataThenGetData(m: Entries, key: string, value: Json, other: string)
    requires key != ""
    ensures DataPut(m, Some(key), Some(value)).0 == Ok(201, Entry(key, value))
    ensures DataGet(DataPut(m, Some(key), Some(value)).1, key) == Ok(200, Entry(key, value))
    ensures other != key ==> DataGet(DataPut(m, Some(key), Some(value)).1, other) == DataGet(m, other)
  {
  }

  /** A rejected write is invisible to both kinds of read. */
  lemma RejectedPutDataChangesNothing(m: Entries, key: Option<string>, value: Option<Json>,
                                      k: string, id: string)
    requires !ValidDataRequest(key, value)
    ensures DataGet(DataPut(m, key, value).1, k) == DataGet(m, k)
    ensures ImageGet(DataPut(m, key, value).1, id) == ImageGet(m, id)
  {
  }

  /** Writing the same key twice keeps only the second value. */
  lemma LastWriterWins(m: Entries, key: string, first: Json, second: Json)
    requires key != ""
    ensures DataPut(DataPut(m, Some(key), Some(first)).1, Some(key), Some(second)).1 ==
            DataPut(m, Some(key), Some(second)).1
  {
  }

  // ---------------------------------------------------------------------
  // Image records

  /** After an accepted image upload, the image reads back under the id
      the response carries, as the record built from the request. */
  lemma PutImageThenGetImage(m: Entries, now: nat, width: Option<Json>, height: Option<Json>,
                             data: Json, timestamp: string)
    requires Truthy(data)
    ensures var (r, m') := ImagePut(m, now, width, height, Some(data), timestamp);
      r.Ok? && ImageGet(m', r.body.imageId) == Ok(200, ImageRecord(width, height, data, timestamp))
  {
    ImageRecordFields(width, height, data, timestamp);
  }

  /** An image upload leaves every generic entry under another key alone. */
  lemma PutImageKeepsOtherData(m: Entries, now: nat, width: Option<Json>, height: Option<Json>,
                               data: Option<Json>, timestamp: string, key: string)
    requires key != ImageKey(DecimalString(now))
    ensures DataGet(ImagePut(m, now, width, height, data, timestamp).1, key) == DataGet(m, key)
  {
  }

  /** Two ids are the same exactly when their keys are. */
  lemma ImageKeyInjective(a: string, b: string)
    ensures ImageKey(a) == ImageKey(b) <==> a == b
  {
    if ImageKey(a) == ImageKey(b) {
      assert ImageKey(a)[|ImagePrefix|..] == a;
      assert ImageKey(b)[|ImagePrefix|..] == b;
    }
  }

  /** Uploads at different instants land under different keys; uploads in
      the same millisecond collide. */
  lemma DistinctInstantsDistinctKeys(now1: nat, now2: nat)
    ensures ImageKey(DecimalString(now1)) == ImageKey(DecimalString(now2)) <==> now1 == now2
  {
    ImageKeyInjective(DecimalString(now1), DecimalString(now2));
    DecimalStringInjective(now1, now2);
  }

  /** A collision is not defended against: the later upload replaces the
      earlier record. */
  lemma SameInstantOverwrites(m: Entries, now: nat, w1: Option<Json>, h1: Option<Json>, d1: Json,
                              t1: string, w2: Option<Json>, h2: Option<Json>, d2: Json, t2: string)
    requires Truthy(d1) && Truthy(d2)
    ensures ImagePut(ImagePut(m, now, w1, h1, Some(d1), t1).1, now, w2, h2, Some(d2), t2).1 ==
            ImagePut(m, now, w2, h2, Some(d2), t2).1
  {
  }

  // ---------------------------------------------------------------------
  // The shared map

  /** A generic write under `"image_" + id` is what the image lookup then
      sees, provided the value is truthy; a falsy value (`0`, `""`, `false`,
      `null`) reads as a missing image. */
  lemma GenericWriteSeenByImageLookup(m: Entries, id: string, value: Json)
    ensures ImageGet(DataPut(m, Some(ImageKey(id)), Some(value)).1, id) ==
            if Truthy(value) then Ok(200, value) else NotFound(ImageNotFound)
  {
  }

  /** Conversely, an image record is readable as a generic entry under its
      prefixed key. */
  lemma ImageSeenByGenericLookup(m: Entries, now: nat, width: Option<Json>, height: Option<Json>,
                                 data: Json, timestamp: string)
    requires Truthy(data)
    ensures var key := ImageKey(DecimalString(now));
      DataGet(ImagePut(m, now, width, height, Some(data), timestamp).1, key) ==
      Ok(200, Entry(key, ImageRecord(width, height, data, timestamp)))
  {
  }

  /** A generic key that does not start with `image_` never disturbs an
      image lookup. */
  lemma UnprefixedKeyInvisibleToImages(m: Entries, key: string, value: Json, id: string)
    requires !(ImagePrefix <= key)
    ensures ImageGet(DataPut(m, Some(key), Some(value)).1, id) == ImageGet(m, id)
  {
    assert ImagePrefix <= ImageKey(id);
  }

  // ---------------------------------------------------------------------
  // Sequences of requests

  /** A request to one of the four store handlers. */
  datatype Request =
    | PostData(key: Option<string>, value: Option<Json>)
    | GetDataRequest(lookupKey: string)
    | PostImage(now: nat, width: Option<Json>, height: Option<Json>, data: Option<Json>, timestamp: string)
    | GetImageRequest(imageId: string)

  /** The store after one request. */
  function Step(m: Entries, req: Request): Entries {
    match req
    case PostData(key, value) => DataPut(m, key, value).1
    case GetDataRequest(_) => m
    case PostImage(now, width, height, data, timestamp) => ImagePut(m, now, width, height, data, timestamp).1
    case GetImageRequest(_) => m
  }

  /** The store after a sequence of requests, handled in order. */
  function Run(m: Entries, reqs: seq<Request>): Entries
    decreases |reqs|
  {
    if reqs == [] then m else Run(Step(m, reqs[0]), reqs[1..])
  }

  /** Whether `req` is an accepted write to key `k`. */
  predicate Writes(req: Request, k: string) {
    match req
    case PostData(key, value) => ValidDataRequest(key, value) && key.value == k
    case GetDataRequest(_) => false
    case PostImage(now, _, _, data, _) => Present(data) && ImageKey(DecimalString(now)) == k
    case GetImageRequest(_) => false
  }

  /** A key that no request in the sequence writes keeps its state: absent
      stays absent and a bound value stays the same. */
  lemma {:induction false} RunFrame(m: Entries, reqs: seq<Request>, k: string)
    requires forall i :: 0 <= i < |reqs| ==> !Writes(reqs[i], k)
    ensures k in Run(m, reqs) <==> k in m
    ensures k in m ==> Run(m, reqs)[k] == m[k]
    decreases |reqs|
  {
    if reqs != [] {
      assert !Writes(reqs[0], k);
      var m' := Step(m, reqs[0]);
      assert (k in m' <==> k in m) && (k in m ==> m'[k] == m[k]);
      RunFrame(m', reqs[1..], k);
    }
  }

  /** Nothing is ever removed from the store. */
  lemma {:induction false} RunKeepsKeys(m: Entries, reqs: seq<Request>)
    ensures m.Keys <= Run(m, reqs).Keys
    decreases |reqs|
  {
    if reqs != [] {
      RunKeepsKeys(Step(m, reqs[0]), reqs[1..]);
    }
  }

  /** Handling two sequences one after the other is handling their
      concatenation. */
  lemma {:induction false} RunAppend(m: Entries, a: seq<Request>, b: seq<Request>)
    ensures Run(m, a + b) == Run(Run(m, a), b)
    decreases |a|
  {
    if a == [] {
      assert a + b == b;
    } else {
      assert (a + b)[0] == a[0] && (a + b)[1..] == a[1..] + b;
      RunAppend(Step(m, a[0]), a[1..], b);
    }
  }

  /** On a fresh store, a key that no request writes is not found. */
  lemma NeverWrittenIsNotFound(reqs: seq<Request>, k: string)
    requires forall i :: 0 <= i < |reqs| ==> !Writes(reqs[i], k)
    ensures DataGet(Run(map[], reqs), k) == NotFound(NoDataFor(k))
  {
    RunFrame(map[], reqs, k);
  }

  /** The last accepted write to a key decides what it reads as, however
      many requests for other keys follow. */
  lemma LastWriteIsRead(m: Entries, before: seq<Request>, key: string, value: Json, after: seq<Request>)
    requires key != ""
    requires forall i :: 0 <= i < |after| ==> !Writes(after[i], key)
    ensures DataGet(Run(m, before + [PostData(Some(key), Some(value))] + after), key) ==
            Ok(200, Entry(key, value))
  {
    var m1 := Run(m, before);
    RunAppend(m, before, [PostData(Some(key), Some(value))]);
    var m2 := Run(m, before + [PostData(Some(key), Some(value))]);
    assert m2 == Run(Step(m1, PostData(Some(key), Some(value))), []);
    RunAppend(m, before + [PostData(Some(key), Some(value))], after);
    RunFrame(m2, after, key);
  }

  // ---------------------------------------------------------------------
  // The store object

  /** `dataStore` and its handlers.  Each handler method computes what the
      corresponding function above specifies. */
  class DataStore {
    var entries: Entries

    /** `const dataStore = {}`. */
    constructor ()
      ensures entries == map[]
    {
      entries := map[];
    }

    /** `POST /api/data`. */
    method PutData(key: Option<string>, value: Option<Json>) returns (r: Response<Entry>)
      modifies this
      ensures (r, entries) == DataPut(old(entries), key, value)
    {
      if key.None? || key.value == "" || value.None? {
        return BadRequest(MissingKeyOrValue);
      }
      entries := entries[key.value := value.value];
      r := Ok(201, Entry(key.value, value.value));
    }

    /** `GET /api/data/:key`. */
    method GetData(key: string) returns (r: Response<Entry>)
      ensures r == DataGet(entries, key)
    {
      if key !in entries {
        return NotFound(NoDataFor(key));
      }
      r := Ok(200, Entry(key, entries[key]));
    }

    /** `POST /api/display-image`; `now` stands for `Date.now()` and
        `timestamp` for `new Date().toISOString()`. */
    method PutImage(now: nat, width: Option<Json>, height: Option<Json>, data: Option<Json>,
                    timestamp: string) returns (r: Response<ImageCreated>)
      modifies this
      ensures (r, entries) == ImagePut(old(entries), now, width, height, data, timestamp)
    {
      if data.None? || !Truthy(data.value) {
        return BadRequest(MissingImageData);
      }
      var imageId := DecimalString(now);
      entries := entries[ImageKey(imageId) := ImageRecord(width, height, data.value, timestamp)];
      r := Ok(200, ImageCreated(imageId));
    }

    /** `GET /api/image/:id`. */
    method GetImage(id: string) returns (r: Response<Json>)
      ensures r == ImageGet(entries, id)
    {
      var key := ImageKey(id);
      if key !in entries || !Truthy(entries[key]) {
        return NotFound(ImageNotFound);
      }
      r := Ok(200, entries[key]);
    }

    /** Any of the four requests, as the router would dispatch it. */
    method Handle(req: Request)
      modifies this
      ensures entries == Step(old(entries), req)
    {
      match req
      case PostData(key, value) =>
        var _ := PutData(key, value);
      case GetDataRequest(key) =>
        var _ := GetData(key);
      case PostImage(now, width, height, data, timestamp) =>
        var _ := PutImage(now, width, height, data, timestamp);
      case GetImageRequest(id) =>
        var _ := GetImage(id);
    }
  }
}
