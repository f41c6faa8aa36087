# A verified model of the image server's data store

The server (`index.js`) is a small Express application. Its only state is
the module-level dictionary `dataStore`. Two write paths share it:

* generic key/value entries, written by `POST /api/data` under the bare key
  and read by `GET /api/data/:key`;
* image records, written by `POST /api/display-image` under
  `"image_" + Date.now()` and read by `GET /api/image/:id`.

Because both paths write one flat map, a generic write to `image_42` is what
`GET /api/image/42` returns, unless the value is falsy: the image lookup
tests `!imageData`, so `0`, `""`, `false` and `null` read as a missing image.

Beside the store the model covers three pure helpers:

* the filter that keeps the image files of a directory listing, comparing
  the lower-cased extension with `.jpg .jpeg .png .gif .webp .svg`;
* the `type` field of `/api/images/:filename`, which is the lower-cased
  extension without its dot;
* the defaulting rules of the DAIN image card (`/api/dain/image`).

Modules:

* `Values` (values.dfy): request fields that may be `undefined`, JSON
  values, and JavaScript truthiness.
* `Http` (http.dfy): the `Response` datatype. Its cases `Ok`, `BadRequest`,
  `NotFound` and `ServerError` stand for the status the handler sends.
* `Decimal` (decimal.dfy): `Date.now().toString()`, which renders the
  millisecond count in decimal. The rendering is proved injective.
* `PathExt` (pathext.dfy): Node's `path.extname` and ASCII `toLowerCase`.
  Node's path module is library code, not part of this model. `ExtName`
  follows its POSIX algorithm:
  * it ignores trailing slashes and takes the last path component;
  * the extension runs from the last dot to the end;
  * it is empty when there is no dot, when the last dot is the component's
    first character, or when the component is `..`.
* `ImageFiles` (imagefiles.dfy): the extension filter, the `/api/images`
  listing, the `type` field and `/api/images/:filename`.
* `Dain` (dain.dfy): `/api/dain/image`.
* `Store` (store.dfy): the specification functions `DataPut`, `DataGet`,
  `ImagePut` and `ImageGet` on a `map<string, Json>`. It also holds the
  lemmas relating them, request sequences (`Run`), and the class
  `DataStore`. That class keeps the map in the field `entries`, and its
  handler methods update the field in place as the source does.

Inputs in place of side effects: `Date.now()` is the parameter `now`, and the
ISO timestamp is the parameter `timestamp`. The results of `fs.readdir`,
`fs.stat`/`fs.statSync` and `fs.access` are the parameters `dir`, `stats`,
`stat` and `fileExists`.

## Behaviour worth noting

* The code rejects a generic write when the key is falsy (missing or `""`)
  or the value is `undefined`. A `null` or other falsy value is accepted and
  stored.
* A successful generic write answers 201.
* An image lookup treats a stored falsy value as absent.

## Model

| member | source | states |
|---|---|---|
| `Values.Truthy` | index.js:222-292 | A JSON value is falsy exactly when it is `null`, `false`, `0` or `""`; every array and object is truthy, as JavaScript's `!x` decides. |
| `Values.Present` | index.js:264-292 | A field is falsy exactly when it is `undefined`, `null`, `false`, `0` or `""`. |
| `Values.OrJson` | index.js:273-274 | `x \|\| d` gives `x` when `x` is truthy and `d` otherwise; the result is truthy exactly when one of the two is. |
| `Values.OrString` | index.js:113-115 | `x \|\| d` on a string parameter gives `x` when it is given and non-empty, and `d` otherwise; the result is empty only when both are. |
| `Store.ValidDataRequest` | index.js:222 | A generic write is refused exactly when the key is missing or `""`, or the value is `undefined`. |
| `Store.ImageRecord` | index.js:272-277 | The stored record is an object with exactly the fields width, height, data and timestamp; it and its width and height are truthy. |
| `Store.DataPut` | index.js:216-228 | A request is rejected with 400 exactly when the key is missing or empty or the value is undefined, and then the store is unchanged. An accepted one answers 201 echoing key and value. It binds the key to the value and keeps every other key's value. |
| `Store.DataGet` | index.js:230-238 | Found (200, key and value) exactly when the key is bound; otherwise 404 with `No data found for key: <key>`. |
| `Store.ImagePut` | index.js:256-285 | Missing or falsy `data` is rejected with 400 and changes nothing. Otherwise the id is the decimal rendering of `now`, the response carries it, and exactly the key `image_<id>` is added or rebound. Its value is the record built from the request, and every other key keeps its value. |
| `Store.ImageGet` | index.js:288-297 | Found exactly when `image_<id>` is bound to a truthy value, and then returns that value; otherwise 404 `Image not found`. |
| `Store.ImageRecordFields` | index.js:272-277 | A truthy width or height is kept, and a missing or falsy one becomes `'auto'`. Data and timestamp are kept unchanged. |
| `Store.PutDataThenGetData` | index.js:226-237 | After an accepted write the response echoes the pair and the key reads back as the written value. Every other key reads as before. |
| `Store.RejectedPutDataChangesNothing` | index.js:222-224 | A rejected generic write changes neither a data lookup nor an image lookup. |
| `Store.LastWriterWins` | index.js:226 | Writing a key twice leaves the same store as writing only the second value. |
| `Store.PutImageThenGetImage` | index.js:269-296 | After an accepted upload, the image lookup with the returned id answers 200 with the record built from the request. |
| `Store.PutImageKeepsOtherData` | index.js:272 | An upload does not change the data lookup of any key other than its own. |
| `Store.ImageKeyInjective` | index.js:272 | Two image keys are equal exactly when their ids are. |
| `Store.DistinctInstantsDistinctKeys` | index.js:269-272 | Uploads at different millisecond instants use different keys. Uploads at the same instant use the same key. |
| `Store.SameInstantOverwrites` | index.js:269-277 | Two uploads in the same millisecond are not told apart: the second record replaces the first. |
| `Store.GenericWriteSeenByImageLookup` | index.js:290-293 | After a generic write of `v` under `image_<id>`, the image lookup for `id` answers 200 with `v` when `v` is truthy. When `v` is falsy it answers 404. |
| `Store.ImageSeenByGenericLookup` | index.js:230-238 | After an accepted upload, the generic lookup of `image_<id>` answers 200 with the image record. |
| `Store.UnprefixedKeyInvisibleToImages` | index.js:290 | A generic write under a key that does not start with `image_` leaves every image lookup unchanged. |
| `Store.RunFrame` | index.js:199 | Over any sequence of requests, a key no accepted write targets keeps its state: absent stays absent, and a bound value stays the same. |
| `Store.RunKeepsKeys` | index.js:199 | No request removes a key: the store only grows. |
| `Store.RunAppend` | index.js:199 | Handling two request sequences one after the other is handling their concatenation. |
| `Store.NeverWrittenIsNotFound` | index.js:233-235 | Start from the empty store and run requests none of which writes key `k`. A data lookup of `k` then answers 404. |
| `Store.LastWriteIsRead` | index.js:226 | Take an accepted write of `v` to `k`, followed by any requests that do not write `k`. A data lookup of `k` then answers `v`. |
| `Store.DataStore.constructor` | index.js:199 | The store starts empty. |
| `Store.DataStore.PutData` | index.js:216-228 | Updates `entries` in place and returns exactly what `DataPut` specifies. |
| `Store.DataStore.GetData` | index.js:230-238 | Returns what `DataGet` specifies on the current entries, without changing them. |
| `Store.DataStore.PutImage` | index.js:256-285 | Updates `entries` in place and returns exactly what `ImagePut` specifies. |
| `Store.DataStore.GetImage` | index.js:288-297 | Returns what `ImageGet` specifies on the current entries, without changing them. |
| `Store.DataStore.Handle` | index.js:216-297 | Dispatching any one of the four requests leaves the entries that `Step` specifies. |
| `Decimal.DecimalString` | index.js:269 | The id is a non-empty string of decimal digits. It has one digit exactly for instants below 10, and no leading zero otherwise. |
| `Decimal.ParseDecimalString` | index.js:269 | Reading the id back as a decimal number gives the instant again. |
| `Decimal.DecimalStringInjective` | index.js:269 | Two instants have the same id exactly when they are equal. |
| `PathExt.LastIndexOf` | index.js:35 | Returns the last position of the character, or -1 when it does not occur. |
| `PathExt.StripTrailingSlashes` | index.js:35 | The result is a prefix of the path that does not end in `/`, and everything cut off is `/`. |
| `PathExt.LastComponent` | index.js:35 | The component contains no `/`. It is the suffix of the path without its trailing slashes that follows the last `/` there, and a path without `/` is its own component. |
| `PathExt.ComponentExt` | index.js:35 | A non-empty extension is a proper suffix of the name that starts with a dot and contains no other dot. |
| `PathExt.ExtName` | index.js:35 | The extension is empty, or it starts with a dot and contains no further dot and no slash. |
| `PathExt.BareExtNameEmpty` | index.js:35 | For a bare file name, the extension is empty exactly when no dot follows the first character, or the name is `..`. |
| `PathExt.BareExtNameSuffix` | index.js:35 | For a bare file name with an extension, the extension is a proper suffix of the name beginning at a dot. |
| `PathExt.ExtNameUpperCase` | index.js:35 | The extension of `A.PNG` is `.PNG`. |
| `PathExt.ExtNameDotFile` | index.js:35 | `.png` has no extension. |
| `PathExt.ExtNameNoDot` | index.js:35 | `noext` has no extension. |
| `PathExt.Lower` | index.js:35 | Lower-casing keeps the length and maps each character on its own. |
| `PathExt.LowerUpperCaseExtension` | index.js:35 | `.PNG` lower-cases to `.png`. |
| `ImageFiles.LowerKeepsDots` | index.js:77 | Lower-casing neither adds nor removes dots and leaves no upper-case ASCII letter. |
| `ImageFiles.IsImageFile` | index.js:35-36 | A file without an extension is never an image file. An image file's extension is a dot followed by three or four characters. |
| `ImageFiles.ImageExtensionShape` | index.js:35-36 | Each of the six image extensions is a dot followed by three or four letters, and what follows the dot is one of the six reported types. |
| `ImageFiles.Filter` | index.js:34-37 | `filter` keeps exactly the elements the predicate accepts and never lengthens the list. |
| `ImageFiles.FilterIsSubsequence` | index.js:34-37 | The kept elements stay in their original order. |
| `ImageFiles.FilterCounts` | index.js:34-37 | An accepted element is kept as often as it occurs, and a rejected one never appears. |
| `ImageFiles.FilterImages` | index.js:34-37 | The listing keeps exactly the files whose lower-cased extension is an image extension. |
| `ImageFiles.FilterImagesCountsAndOrder` | index.js:34-37 | The listing keeps each image file as often as it occurs, drops every other file, and keeps the directory order. |
| `ImageFiles.NoExtensionIsNotImageFile` | index.js:34-37 | A file without an extension is never listed. |
| `ImageFiles.UpperCaseIsImageFile` | index.js:34-37 | `A.PNG` is listed as an image. |
| `ImageFiles.DotFileIsNotImageFile` | index.js:34-37 | `.png` is not listed. |
| `ImageFiles.NoDotIsNotImageFile` | index.js:34-37 | `noext` is not listed. |
| `ImageFiles.FilterImagesExample` | index.js:34-37 | Of `A.PNG`, `.png` and `noext`, only `A.PNG` is kept. |
| `ImageFiles.TypeOf` | index.js:77 | The type is empty when there is no extension. Otherwise the type, with a dot in front, is the lower-cased extension. It contains no dot and no upper-case ASCII letter. |
| `ImageFiles.ImageTypeOfImageFile` | index.js:77 | Every file the listing accepts reports one of `jpg jpeg png gif webp svg` as its type. |
| `ImageFiles.ListImages` | index.js:28-58 | A failed directory read answers 500. Otherwise the listing answers 200 with one entry per image file, in order. Each entry carries the file's stats when it can be stat'ed, and otherwise marks it as undescribed. |
| `ImageFiles.DescribeImage` | index.js:67-80 | A file that cannot be stat'ed answers 404. Otherwise the answer is 200 with the file's name, its stats and its type. |
| `Dain.DainImage` | index.js:85-129 | A missing or empty filename answers 400, before existence is checked. A missing file answers 404. Otherwise the card keeps the filename. Title, description and aspect ratio are never empty. A given, non-empty title, description or aspect ratio is used as is; a missing or empty one falls back to the filename, `Image from server` and `wide`. |
| `Dain.AspectRatioParam` | index.js:86 | The destructuring default `'wide'` applies exactly when the parameter is absent; a given one, even an empty one, is kept. |
| `Dain.AspectRatioDefaultRedundant` | index.js:86-115 | The destructuring default `'wide'` adds nothing: an absent and an empty aspect ratio give the same card. |

## Left out

- Express setup, middleware, body parsing, CORS, static serving and `app.listen` (index.js:1-17, 300-309): framework plumbing with no logic of the core.
- The health check (index.js:20-22): it always answers the fixed body `{status: 'OK', message: 'Server is running'}` and touches no state.
- `/api/log-post` and `POST /` (index.js:202-214, 241-253): they only log and echo their input.
- The weather and forecast endpoints (index.js:134-196): their data are random floating-point numbers and clock arithmetic. Their only logic is a check that three query parameters are present.
- Logging through `console.log` throughout: it has no effect on responses or state.
- The file system: `fs.readdir`, `fs.stat`, `fs.statSync` and `fs.access` are replaced by their results, passed in as inputs. File sizes and modification times are taken as given.
- URL strings (`url`, `viewUrl`), `fullPath` and the `usage.dainExample` text: they are built from the request's host and from `encodeURIComponent` and `path.join`. None of these is modelled.
- The fixed success fields of the bodies (`message`, `success: true`) and the `details` text of error bodies.
- JavaScript plain-object quirks: prototype keys such as `__proto__` or `constructor`, and the coercion of non-string keys to property names. Keys are strings in a plain map.
- Query parameters given more than once (which Express delivers as arrays): parameters are modelled as strings that may be missing.
- JSON numbers are modelled as reals. The order of an object's fields, which only affects serialisation, is not modelled.
- `PathExt.Lower`: does not model Unicode case mapping, only ASCII `A`-`Z`. For the image filter this is exact: the lower-case form of a non-ASCII character still contains a non-ASCII character, except for the Kelvin sign, which becomes `k`, and `k` occurs in none of the six extensions. For `ImageFiles.TypeOf` a non-ASCII extension may be reported with different letters than the source would.
- `Decimal.DecimalString`: does not model the exponent notation that `Number.prototype.toString` uses from 10^21 on. Millisecond clocks stay far below that. The instant `now` is a natural number, so a clock set before 1970, whose negative `Date.now()` renders with a leading `-`, is not modelled either.
- Concurrency: Node runs each handler to completion on one thread, so handlers are modelled as atomic steps.
