# go-musicbrainz, modelled in Dafny

This project models the core of go-musicbrainz, a Go client for the
MusicBrainz web service. It covers four parts:

- **Search query builders.** `SearchReleaseRequest.Query` and
  `SearchReleaseGroupRequest.Query` build a Lucene-style query from a request's
  fields. `queryPart` quotes and escapes each value.
- **Model helpers.** `Relation.IsParentLabel` and `Label.ParentLabels` select
  parent labels. `Release.DiscogsReleaseIDs` pulls the Discogs ids out of URL
  relations. `ReleaseGroup.String` gives the display form. `Record` is a payload
  stamped with a date.
- **The lookup layers.** `clientAPI` makes one requester call per lookup by id.
  `clientCacheFS` is a read-through cache of JSON files. `clientCacheInMem` is
  an in-memory read-through cache keyed by `<entity>_<id>`.
- **The factory.** `NewClient` stacks those layers from a `Config`.
  `NewDefaultConfig` supplies the defaults.

These files hold the model:

- `text.dfy`: string helpers (`strings.Join`, `path.Join`, decimal digits, prefix and suffix cutting).
- `model.dfy`: the entities, the query builders, parent labels, Discogs ids and the display form.
- `query_properties.dfy`: what the query builders emit.
- `types.dfy`: errors, requests, responses and the `(Record, error)` outcome.
- `config.dfy`: the `Config` type and its defaults.
- `client_api.dfy`: the web-service layer.
- `client_cache_inmem.dfy`: the in-memory cache.
- `client_cache_fs.dfy`: the filesystem cache.
- `factory.dfy`: the factory.
- `lookup.dfy`: the client as one stateful class, with a functional specification `Answer`.
- `lookup_properties.dfy`: what a lookup does, layer by layer and end to end.

The Go layers wrap each other through the `Client` interface. Here they become
the datatype `Factory.Layer`:

- `Api(requester)`: the web-service client;
- `Fs(baseDir, inner)`: the filesystem cache;
- `Mem(size, ttl, inner)`: the in-memory cache.

The class `Lookup.Client` holds everything that a lookup mutates:

- the in-memory store;
- the files and directories the filesystem cache sees;
- the log of requester calls;
- the number of clock readings taken.

Its methods follow the Go decorators step by step.

The pure function `Lookup.Answer` specifies a lookup through a layer. Every
lookup method of `Client` (Artist, Release, ReleaseGroup, Get, Fetch,
FromMem, FromFs, FromApi) is proved to end in the outcome and state that
`Answer` gives; the primitives beneath them (Send, Now, ReadFile,
MarshalIndent, Unmarshal, MkdirAll, WriteFile), Evict and the searches are
specified on their own. The properties are lemmas about `Answer`.

The program's contact with the outside world is the record `Lookup.Env`:

- the requester's response to its n-th call (this covers rate limiting,
  retries, HTTP status handling and JSON decoding of responses);
- the n-th reading of `time.Now`;
- the faults `os.ReadFile`, `os.MkdirAll`, `os.WriteFile` and
  `json.MarshalIndent` may report;
- the web-service answers to the two searches.

## Model

| member | source | states |
|---|---|---|
| Model.Zero | client_api.go:44 | The zero value of each entity type has that type's kind. |
| Model.Escape | model.go:307 | The quote escaping of queryPart: a backslash before every quote, nothing else changed. It has no contract of its own. Its properties are the lemmas UnescapeEscape (invertible), EscapedQuotes, EscapeChangesOnlyQuotes and EscapeKeepsBackslash. |
| Model.QueryPart | model.go:306-308 | `field:"escaped value"`. It has no contract of its own. QueryPartReadBack states its shape and that the value reads back, and TrailingBackslash and EscapedBackslashThenQuote show that backslashes pass through unescaped. |
| Model.QueryPartReadBack | model.go:306-308 | A query part is `field:"…"`; undoing the escaping of the quoted text gives the value back; with no quote in the value it is `field:"value"` verbatim. |
| Model.UnescapeEscape | model.go:307 | Escaping quotes is invertible: unescaping the escaped value gives the original value. |
| Model.EscapedQuotes | model.go:307 | Every quote in an escaped value is preceded by a backslash. |
| Model.TrailingBackslash | model.go:306-308 | A value ending in a backslash gives a term whose closing quote is preceded by a backslash (an escaped quote to a Lucene parser). |
| Model.EscapedBackslashThenQuote | model.go:306-308 | A backslash before a quote in the value yields `\\` followed by a quote (an escaped backslash, then a bare quote, to a Lucene parser). |
| Model.EscapeChangesOnlyQuotes | model.go:307 | Escaping never shortens a value, and leaves it unchanged exactly when it contains no quote. |
| Model.EscapeKeepsBackslash | model.go:307 | Backslashes are not escaped: `a\b` is kept, and `\"` becomes `\\"`. |
| Model.ReleaseOrPartsRender | model.go:315-332 | The release OR-parts are the rendered terms for the fields that are set, in source order: fuzzy artist and release, then date, format, catno and tracks. |
| Model.ReleaseGroupOrPartsRender | model.go:273-281 | The release-group OR-parts are the rendered terms for fuzzy artist and release, then firstreleasedate, each present only when set. |
| Model.ReleaseQueryOrParts | model.go:310-332 | The straight-line conditional appends build exactly the release OR-part list. |
| Model.ReleaseQuery | model.go:310-346 | The release query is the " AND " join of: the parenthesised OR group, then raw, then reid, then rgid, each present only when set. |
| Model.ReleaseGroupQuery | model.go:268-292 | The release-group query is the " AND " join of: raw first, then the OR group, then rgid. |
| Model.IsParentLabel | model.go:191-205 | True exactly when the label id is set, the direction is backward, the type is "label ownership" and the label type is Imprint or Original Production. |
| Model.ParentLabels | model.go:217-225 | The result is the parent-label filter of the relations, in order; an element is in it iff it is a relation of the label that is a parent label. |
| Model.ParentLabelsMembers | model.go:217-225 | Membership in the filtered list is exactly being a relation that is a parent label. |
| Model.ParentLabelsAppend | model.go:217-225 | Filtering distributes over concatenation, so the order of the relations is kept. |
| Model.ParentLabelsIdempotent | model.go:217-225 | Filtering an already filtered list changes nothing. |
| Model.FindMatch | model.go:131 | Finds the leftmost position from which `discogs.com/release/` and a digit follow, or reports that there is none. |
| Model.DigitRunEnd | model.go:131 | The greedy `\d+` ends at the first non-digit. |
| Model.Submatch | model.go:131 | The captured group is a non-empty run of digits. |
| Model.DiscogsID | model.go:138-140 | FindStringSubmatch then Atoi of the capture. It has no contract of its own. DiscogsIDMeaning states that an id exists iff the URL matches, and that it is the number at the leftmost match. |
| Model.DiscogsIDMeaning | model.go:131-142 | An id is found iff the URL matches the expression somewhere, and it is the decimal value of the leftmost match's digit run. |
| Model.DiscogsReleaseIDs | model.go:133-147 | The ids are those of the discogs URL relations that match, in relation order, and there are at most as many as relations. |
| Model.DiscogsIDsMembers | model.go:133-147 | A number is among the ids iff some relation yields it. |
| Model.DiscogsIDsAppend | model.go:133-147 | The ids of concatenated relation lists are the concatenated ids. |
| Model.CollectSound | model.go:136-143 | Every collected value comes from some element. |
| Model.CollectComplete | model.go:136-143 | Every element that yields a value has it collected. |
| Model.CollectLength | model.go:136-143 | Collecting never yields more values than elements. |
| Model.DiscogsExample | model.go:131-147 | `https://www.discogs.com/release/42-x` yields the id 42. |
| Model.CreditNames | model.go:368-371 | Defines the names the credit loop collects: one name per artist credit, in order. This contract is the definition, not a derived property. |
| Model.ReleaseGroupString | model.go:367-373 | The display form is `[id] artists - title (date)`, with the credited names joined by "; ". Its length is the lengths of the id, the joined names, the title and the date plus the 9 fixed characters. |
| QueryProperties.ReleaseQueryEmptyIff | model.go:310-346 | The release query is empty exactly when no field of the request is set (tracks counts only when positive). |
| QueryProperties.ReleaseClauseOrder | model.go:333-344 | When every clause is present, the clauses are exactly the OR group, raw, reid and rgid, in that order. |
| QueryProperties.ReleaseGroupQueryEmptyIff | model.go:268-292 | The release-group query is empty exactly when raw, artist name, release name, first release date and rgid are all empty; Reid plays no part. |
| QueryProperties.ReleaseGroupClauseOrder | model.go:282-290 | When every clause is present, the clauses are exactly raw, the OR group and rgid, in that order. |
| QueryProperties.ReleaseGroupIgnoresReid | model.go:259-292 | The request's Reid field does not change the release-group query: the builder never reads it. |
| QueryProperties.ReleaseTermsEmitted | model.go:315-344 | Every OR term of a release search has a non-empty value, and it is fuzzy (`~`) exactly when it is the artist or release term. |
| QueryProperties.ReleaseGroupTermsEmitted | model.go:273-290 | Every OR term of a release-group search has a non-empty value, and it is fuzzy exactly when it is the artist or release term. |
| QueryProperties.ReleaseTracksTerm | model.go:330-332 | A tracks term is emitted iff the count is positive; it is the last OR term and its decimal text reads back to the count. |
| QueryProperties.ArtistAndReleaseQuery | model.go:315-320 | Artist and release name alone give `(artistname:"…"~ OR release:"…"~)`. |
| QueryProperties.AirMoonSafariQuery | model.go:315-334 | Artist Air and release Moon Safari give `(artistname:"Air"~ OR release:"Moon Safari"~)`. |
| Text.JoinSnoc | model.go:334 | Joining with one more part adds the separator and that part at the end. |
| Text.JoinEmptyIff | model.go:345 | A join of non-empty parts is empty exactly when there are no parts. |
| Text.Join | model.go:334 | `strings.Join`. It has no contract of its own. JoinSnoc (one more part adds the separator and the part) and JoinEmptyIff state its properties. |
| Text.PathJoin | client_cache_fs.go:41 | Defines the abstraction of `path.Join` used here (its ensures are its three cases): two non-empty pieces get one slash between them, and an empty piece is dropped. |
| Text.DecimalString | model.go:331 | The decimal text of a number is a non-empty digit string with no leading zero (except for 0). |
| Text.DecimalValue | model.go:140 | `strconv.Atoi` of a digit run. It has no contract of its own. DecimalRoundTrip (it inverts Itoa) and DecimalLeadingZero state its properties. |
| Text.DecimalRoundTrip | model.go:331 | Reading the decimal text of a number back gives the number. |
| Text.DecimalLeadingZero | model.go:140 | Leading zeros do not change the value read from a digit string. |
| Config.DefaultConfig | config.go:31-46 | No filesystem cache, 1000 entries for ten minutes in memory, one request per second with a burst of 3, 20 retries waiting 5 to 60 seconds, a 30-second timeout. |
| ClientApi.Typed | client_api.go:44-48 | The payload has the lookup's type: the decoded body when it is of that type, otherwise the zero value. |
| ClientApi.LookupOutcome | client_api.go:49-52 | The record is stamped with the clock reading and built even when the call failed; the requester's error is returned as it is. |
| ClientApi.Segment | client_api.go:17-37 | The entity segment of each lookup is a non-empty name without a slash. |
| ClientApi.Includes | client_api.go:19-39 | Every lookup's include list is non-empty and ends with url-rels, and no include is empty or contains "+". |
| ClientApi.Inc | client_api.go:46 | The `inc` parameter, the includes joined by "+". It has no contract of its own. IncArtist, IncRelease and IncReleaseGroup state its value for each entity. |
| ClientApi.LookupRequest | client_api.go:45-48 | The request clientAPIByID sends. It has no contract of its own. LookupRequestParams states its parameters, and LookupPathRoundTrip and LookupPathInjective state its path. |
| ClientApi.LookupRequestParams | client_api.go:45-48 | The request carries exactly `inc` and `fmt`, with `fmt` = json and `inc` the includes joined by "+". |
| ClientApi.IncArtist | client_api.go:19 | An artist lookup asks for `tags+url-rels`. |
| ClientApi.IncRelease | client_api.go:29 | A release lookup asks for `artists+labels+recordings+release-groups+url-rels`. |
| ClientApi.IncReleaseGroup | client_api.go:39 | A release-group lookup asks for `artists+genres+url-rels`. |
| ClientApi.LookupPathRoundTrip | client_api.go:45 | The lookup path `/<entity>/<id>` reads back to the entity and the id. |
| ClientApi.LookupPathInjective | client_api.go:45 | Two lookups use the same path iff they are for the same entity and id. |
| ClientCacheInMem.ParseKeyOf | client_cache_inmem.go:33 | A cache key `<entity>_<id>` reads back to the entity and the id. |
| ClientCacheInMem.KeyInjective | client_cache_inmem.go:33 | Two lookups share a cache key iff they are for the same entity and id. |
| ClientCacheInMem.Key | client_cache_inmem.go:33 | `<entity>_<id>`. It has no contract of its own. ParseKeyOf (it reads back) and KeyInjective state its properties. |
| ClientCacheInMem.WellKindedAdd | client_cache_inmem.go:41 | Adding a record of the lookup's type under its key keeps every key holding a record of its entity's type. |
| ClientCacheInMem.WellKindedDrop | client_cache_inmem.go:11 | Removing entries (eviction, expiry) keeps that invariant. |
| ClientCacheFs.Decode | client_cache_fs.go:53-54 | Decoding succeeds only with a record of the type asked for, and otherwise fails with a JSON error. |
| ClientCacheFs.DecodeEncode | client_cache_fs.go:47-54 | Decoding the JSON a record was encoded to gives the record back, date included. |
| ClientCacheFs.EntryPathShape | client_cache_fs.go:41 | The cache file is `baseDir/<entity>/<id>.json`, or `<entity>/<id>.json` when the base is empty. |
| ClientCacheFs.ParseEntryPathOf | client_cache_fs.go:41 | A cache path reads back to the entity and the id. |
| ClientCacheFs.EntryPathInjective | client_cache_fs.go:41 | Under one base directory, two lookups share a file iff they are for the same entity and id, for the path before `path.Join`'s cleaning. |
| ClientCacheFs.EntryPath | client_cache_fs.go:41 | `path.Join(baseDir, name, id + ".json")`, without cleaning. It has no contract of its own. EntryPathShape, ParseEntryPathOf and EntryPathInjective state its properties. |
| ClientCacheFs.Dir | client_cache_fs.go:48 | `path.Dir`: everything before the last slash. It has no contract of its own. EntryDir states that it gives the entry's directory. |
| ClientCacheFs.EntryDir | client_cache_fs.go:48 | The directory created before writing is `baseDir/<entity>`, the one holding the file, for ids without slashes. |
| Factory.Tiers | factory.go:12-49 | Every client bottoms out in the web-service client. |
| Factory.NewClient | factory.go:12-49 | The result is one of the canonical stacks, and its bottom is the limiter over resty built from the config. NewClientTiers, NewClientFsDir and NewClientMem state which layers it stacks. |
| Factory.NewClientTiers | factory.go:12-49 | The in-memory layer is present iff the size is positive, and the filesystem layer iff BaseDir is set; they are stacked in-memory over filesystem over web service. |
| Factory.NewClientInnermost | factory.go:15-28 | The bottom is the rate limiter with the configured rate and burst, over resty with the configured URL, timeout, user agent and retry settings. |
| Factory.NewClientFsDir | factory.go:30-35 | The filesystem layer writes under `<data folder>/musicbrainz`; the value of BaseDir only switches it on. |
| Factory.NewClientMem | factory.go:37-46 | The in-memory layer is the outermost one and has the configured size and time to live. |
| Factory.DefaultClient | factory.go:12-49 | The default configuration gives a 1000-entry, ten-minute in-memory cache directly over the web-service client: one request per second, burst 3, and resty on `https://musicbrainz.org/ws/2`. |
| Lookup.AnswerKind | client_cache_inmem.go:34-35 | Every lookup returns a record of the type asked for and keeps every key holding a record of its entity's type, so the type assertion on a hit cannot fail. |
| Lookup.Answer | interface.go:8-10 | A lookup through a layer as a function of the state. It has no contract of its own. The lookup methods are proved equal to it, and AnswerKind and the LookupProperties lemmas state its properties. |
| Lookup.Persist | client_cache_fs.go:47-51 | Encode, make the directory, write, each step only after the one before succeeds. It has no contract of its own. PersistFacts states its outcome and new state. |
| Lookup.Client.constructor | factory.go:12-49 | A new client is NewClient's chain with an empty in-memory store over the files already on disk. |
| Lookup.Client.Artist | client_cache_inmem.go:14-16 | An artist lookup ends in the outcome and state of the specification and returns an artist record. |
| Lookup.Client.Release | client_cache_inmem.go:18-20 | A release lookup ends in the outcome and state of the specification and returns a release record. |
| Lookup.Client.ReleaseGroup | client_cache_inmem.go:22-24 | A release-group lookup ends in the outcome and state of the specification and returns a release-group record. |
| Lookup.Client.Get | interface.go:8-10 | A lookup by id through the whole chain keeps the store invariant and matches the specification. |
| Lookup.Client.Fetch | interface.go:8-10 | Dispatch to the layer's own lookup matches the specification for that layer. |
| Lookup.Client.FromMem | client_cache_inmem.go:26-43 | The in-memory lookup, performed as the source does: hit, inner call, store on success. It matches the specification. |
| Lookup.Client.FromFs | client_cache_fs.go:30-58 | The filesystem lookup, performed as the source does: read; on a missing file fetch, restamp, encode, make the directory and write; otherwise decode. It matches the specification. |
| Lookup.Client.FromApi | client_api.go:43-53 | One requester call, then a record stamped with the next clock reading. It matches the specification. |
| Lookup.Client.Send | client_api.go:45-48 | The requester's answer to this call is the environment's, and the call is logged. |
| Lookup.Client.Now | client_api.go:50 | Each reading of the clock is the next one. |
| Lookup.Client.ReadFile | client_cache_fs.go:42-44 | Defines the abstraction of `os.ReadFile` (its ensures is `FileAt`): a fault, the file's content, or "does not exist". |
| Lookup.Client.Unmarshal | client_cache_fs.go:53-54 | Decoding a file gives the decoded record, or the zero record with the decoder's error. |
| Lookup.Client.MarshalIndent | client_cache_fs.go:47 | Defines the abstraction of `json.MarshalIndent`: the record's encoding, with the environment's fault for it. |
| Lookup.Client.MkdirAll | client_cache_fs.go:48 | On success the directory exists; on a fault nothing changes. |
| Lookup.Client.WriteFile | client_cache_fs.go:49 | On success the file holds the bytes; on a fault nothing changes. |
| Lookup.Client.Evict | client_cache_inmem.go:11 | Eviction or expiry removes some entries of the store, changes nothing else and keeps the store invariant. |
| Lookup.Client.SearchRelease | interface.go:11 | A release search on any chain gives the web-service client's answer: no cache layer intercepts it. |
| Lookup.Client.SearchReleaseGroup | interface.go:12 | A release-group search on any chain gives the web-service client's answer. |
| LookupProperties.NoMemKeepsStore | client_cache_fs.go:30-58 | Layers without an in-memory cache never change the in-memory store. |
| LookupProperties.NoFsKeepsFiles | client_cache_inmem.go:26-43 | Layers without a filesystem cache never change the files or directories. |
| LookupProperties.CallLog | client_api.go:43-53 | A lookup calls the requester at most once: exactly once, with the lookup's own request, when every cache layer misses, and not at all otherwise. |
| LookupProperties.ApiLookup | client_api.go:43-53 | The web-service layer logs one call, returns the stamped and typed record with the requester's error, and touches no cache. |
| LookupProperties.MemHit | client_cache_inmem.go:34-35 | A hit returns the stored record, date included, with no error, and changes nothing. |
| LookupProperties.MemMissFails | client_cache_inmem.go:37-40 | A miss whose inner lookup fails returns the inner result unchanged and stores nothing. |
| LookupProperties.MemMissStores | client_cache_inmem.go:37-42 | A miss whose inner lookup succeeds returns that record with no error and stores it under its key; other keys and all other state are as the inner lookup left them. |
| LookupProperties.MemRepeat | client_cache_inmem.go:33-42 | Right after a successful lookup, the same lookup is a hit with the same record and no change. |
| LookupProperties.FsHit | client_cache_fs.go:53-57 | A file that decodes is returned as stored, date included, and nothing is fetched or written. |
| LookupProperties.FsCorrupt | client_cache_fs.go:53-57 | A file that does not decode gives the zero record and a JSON error; nothing is fetched or rewritten. |
| LookupProperties.FsReadError | client_cache_fs.go:42-57 | A read error other than "does not exist" is returned with the zero record, and nothing is fetched. |
| LookupProperties.FsAbsentFails | client_cache_fs.go:44-45 | A missing file whose inner lookup fails returns the inner result unchanged and writes nothing. |
| LookupProperties.PersistFacts | client_cache_fs.go:47-51 | Persisting returns the record with the first fault among encoding, making the directory and writing; the file holds the encoding exactly when there was no fault. |
| LookupProperties.FsAbsentPersists | client_cache_fs.go:44-52 | A missing file whose inner lookup succeeds returns the record restamped with the next clock reading, persisted as above; the store and the call log are as the inner lookup left them. |
| LookupProperties.FsRoundTrip | client_cache_fs.go:41-57 | After a lookup fetched and persisted a record, the same lookup reads that record back from the file, with its new date, and changes nothing. |
| LookupProperties.DefaultClientLookup | factory.go:12-49 | With the default configuration, a hit sends nothing and changes nothing. A miss sends exactly the lookup's request. A success leaves the record in the store under its key. |

## Left out

- Rate limiting, retries and HTTP status handling (requester_limiter.go, requester_resty.go) are not modelled. The requester's answer to each call is an oracle in `Lookup.Env`. This covers a limiter `Wait` error that stops the call, and the mapping of HTTP 404 to `ErrNotFound`.
- Decoding of web-service responses is not modelled. The oracle gives the decoded body, possibly of the wrong type or absent; `ClientApi.Typed` reads it as the lookup's type.
- The bodies of `clientAPI.SearchRelease` and `clientAPI.SearchReleaseGroup` are not part of this model. At the bottom layer a search is the environment's answer.
- Lookup.Client.SearchRelease, Lookup.Client.SearchReleaseGroup: do not record a requester call or a clock reading, because the search bodies are not available.
- The in-memory cache's capacity, least-recently-used order and time to live are not modelled. `Lookup.Client.Evict` may drop any entries at any time, and a lookup treats whatever remains as the store.
- JSON is modelled as `Json(record)` or `Malformed(text)`, not as bytes. The indentation of `json.MarshalIndent` and the text form of dates are not modelled.
- ClientCacheFs.Decode: a document that holds another entity type counts as malformed. Go would decode what fields it can.
- Lookup.Client.Unmarshal: returns the zero record on a decode failure. Go may return a partly filled record.
- queryPart escapes quotes but not backslashes, so a value containing a backslash can end its quoted phrase early or leave it unclosed (Model.TrailingBackslash, Model.EscapedBackslashThenQuote); the model reproduces this and proves no phrase-closing property.
- ClientCacheFs.EntryPathInjective: holds for paths as joined, before cleaning; with `path.Join`'s cleaning, ids holding `/` or `..` can collide (`ReleaseGroup("../artist/x")` and `Artist("x")` share a file).
- Path cleaning in `path.Join` and `path.Dir` (".", "..", repeated slashes) is not modelled.
- ClientCacheFs.EntryDir: ids containing '/' are excluded. For them the directory created is deeper than `baseDir/<entity>`.
- `os.MkdirAll` is modelled as adding one directory. Parent directories and file modes are not modelled.
- A partly written file is not modelled; a write either succeeds or leaves the file as it was.
- File system faults depend only on the path, and the marshal fault only on the record. A fault that comes and goes over time is not modelled.
- `strconv.Atoi` overflow on very long digit runs is not modelled: ids are unbounded naturals. The ignored Atoi error cannot otherwise occur, since the captured text is all digits.
- Concurrency and `context.Context` cancellation are not modelled.
- Lookup.Client.Get: requires the canonical stack NewClient builds, at most one in-memory layer. With several in-memory layers the model would share one store between them.
- The release query builder is split into `Model.ReleaseQueryOrParts` (the OR-parts) and `Model.ReleaseQuery` (the whole query). `Model.ReleaseGroupQuery` is one method, as in the source. All three are proved against list-valued functions, and `Model.ReleaseGroupString` against `DisplayForm`.
- The `rate.Every` conversion is `Config.Every`. It has no contract of its own; `Config.DefaultConfig` states the resulting rate.
- ClientApi.IncRelease: the include string is stated as a concatenation of its pieces rather than as one literal; the two are the same string.
