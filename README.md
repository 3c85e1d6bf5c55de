# Persistence dialect layer: a Dafny model

This project models the persistence layer of a time-tracking backend. One
backend-agnostic API (`DatabaseAdapter`) sits in front of either a MongoDB
document store or a Supabase (PostgREST) relational store. On the relational
path it translates document-store idioms into query-builder calls:

- the `_id` key of a filter becomes `id`, and returned rows gain `_id`;
- filter mappings become `.eq` / `.in_` predicates;
- sort lists become `.order`;
- skip and limit become `.range` / `.limit`;
- `$set` update expressions are unwrapped, and `created_at` / `updated_at` timestamps are written.

Files:

- `runtime.dfy` (module `Runtime`): the Python values the layer handles. A dict
  is an insertion-ordered sequence of `(key, value)` pairs, because the
  predicate chain follows `items()` order. `d[k] = v` keeps an existing key in
  place and appends a new one, as Python does. `PyDict` is a caller-owned dict
  that the layer writes into in place. `Env` holds the environment variables
  the layer reads.
- `supabase_client.dfy` (module `SupabaseClient`): the module global
  `supabase_db` becomes the class `SupabaseDb`. It holds the client and the
  log of executed builder chains. A chain is a sequence of `Op`
  (`Table`, `Select`, `Insert`, `Eq`, `In`, `Order`, `Range`, `Limit`, `Update`,
  `Delete`). What `.execute()` answers is a `Reply` parameter. Every
  `SupabaseOperations` method is proved against the chain it must send
  (`GetOneChain`, `GetManyChain`, ...) and the reading of the reply
  (`FirstRow`, `AnyRows`, ...). The filter loops are methods with loop
  invariants. The paging calls are given a meaning (`Paged`) and compared
  with document-store skip/limit (`SkipLimit`).
- `mongo.dfy` (module `Mongo`): the document-store branch as an opaque
  pass-through. Each forwarded call is logged with its arguments untouched,
  and its answer is a parameter.
- `database_adapter.dfy` (module `Adapter`): the class `DatabaseAdapter`, with
  its backend selector and connection flag. Its connect/disconnect state
  changes, its per-operation dispatch, the identifier mappings
  (`IdToSupabase`, `WithMongoId`), the sort normalisation, the `$set` unwrap and
  the lemmas about them.

"Now" (`datetime.utcnow().isoformat()`) is a string parameter. `DATABASE_TYPE`
is a constructor argument.

Behaviour of the code worth knowing, which the model keeps:

- A failed `connect` leaves `is_connected` as it was. It does not reset it to false.
- Only `get_documents` translates `{"$in": [...]}`. `get_document`,
  `update_document`, `delete_document` and `count_documents` send it as an
  equality against the mapping (`EqualityTranslationAgrees`).
- Other operators such as `$gte` are silently sent as equalities. They are not rejected.
- `aggregate` on the relational backend returns an empty list. It does not return a typed "unsupported" result.

## Model

| member | source | states |
|---|---|---|
| `SupabaseClient.SupabaseDb.constructor` | backend/database/supabase_client.py:9-12 | the module global starts with no client and nothing sent |
| `SupabaseClient.SupabaseDb.Execute` | backend/database/supabase_client.py:95 | `.execute()` sends the finished chain: it is appended to the sent log, the client is kept, and the answer is the backend's reply (the same holds at lines 47, 62, 112, 125 and 139) |
| `SupabaseClient.ConnectToSupabase` | backend/database/supabase_client.py:14-28 | succeeds exactly when SUPABASE_URL and SUPABASE_SERVICE_ROLE_KEY are both set and non-empty, and then holds a client made from them; otherwise raises ValueError and keeps the old client |
| `SupabaseClient.GetSupabaseClient` | backend/database/supabase_client.py:30-34 | an already-held client is returned unchanged; only when none is held does it connect, with the same failure as connecting |
| `SupabaseClient.Filters` | backend/database/supabase_client.py:77-83 | one predicate per filter key, in key order, on that key; `In(key, value["$in"])` exactly for mapping values containing `$in`, `Eq(key, value)` for every other value |
| `SupabaseClient.AddEqFilters` | backend/database/supabase_client.py:59-60 | the loop appends exactly the equality-only translation of the filter to the builder chain |
| `SupabaseClient.AddFilters` | backend/database/supabase_client.py:77-83 | the loop appends exactly the `$in`-aware translation of the filter to the builder chain |
| `SupabaseClient.EqualityTranslationAgrees` | backend/database/supabase_client.py:77-83 | the equality-only and the `$in`-aware translations coincide if and only if no filter value is a `$in` mapping |
| `SupabaseClient.ConjunctionExample` | backend/database/supabase_client.py:78-83 | `{"a": 1, "b": {"$in": [2, 3]}}` becomes `Eq(a, 1)` then `In(b, [2, 3])` |
| `SupabaseClient.OtherOperatorsBecomeEquality` | backend/database/supabase_client.py:79-83 | a `{"$gte": x}` value becomes an equality against the operator mapping itself |
| `SupabaseClient.PageOps` | backend/database/supabase_client.py:89-93 | at most one paging call; a non-zero offset gives `Range(offset, offset + (limit or 1000) - 1)`; with offset 0 the call is `Limit(limit)` exactly when limit is truthy, and none otherwise |
| `SupabaseClient.PagingAgreesWithSkipLimit` | backend/database/supabase_client.py:89-93 | for a non-negative offset and limit, the rows the paging call keeps are the document store's skip-then-limit, with a 1000-row limit substituted when the offset is non-zero and the limit is absent or 0 |
| `SupabaseClient.OffsetWithoutLimitExample` | backend/database/supabase_client.py:90-93 | skip 10 with no limit (or limit 0) reads rows 10 to 1009; skip 10 limit 20 reads rows 10 to 29; skip 0 limit 20 sends `Limit(20)` |
| `SupabaseClient.DefaultWindowTruncates` | backend/database/supabase_client.py:90-91 | with an offset and no limit, all remaining rows come back if and only if at most 1000 remain |
| `SupabaseClient.GetManyChainOrder` | backend/database/supabase_client.py:74-93 | the chain is table and select, then the filters, then `Order(sort_by, sort_desc)` only when `sort_by` is truthy, then the paging call |
| `SupabaseClient.StampedFields` | backend/database/supabase_client.py:43-45 | the stored document has `created_at` and `updated_at` equal to now, every other field as given, and still distinct keys |
| `SupabaseClient.TouchedFields` | backend/database/supabase_client.py:104-105 | `updated_at` is now, overwriting a caller value in place or appended when absent; every other field is kept |
| `SupabaseClient.CreatedId` | backend/database/supabase_client.py:47-50 | the id of the first returned row when rows come back; "Failed to create document" when none do; KeyError when the first row has no `id`; a backend failure is passed on |
| `SupabaseClient.FirstRow` | backend/database/supabase_client.py:62-65 | the first returned row, or none exactly when no row came back |
| `SupabaseClient.AllRows` | backend/database/supabase_client.py:95-96 | the returned rows, unchanged |
| `SupabaseClient.AnyRows` | backend/database/supabase_client.py:112-113 | true if and only if at least one row came back |
| `SupabaseClient.CountOf` | backend/database/supabase_client.py:139-140 | the reported count, and 0 when no count is reported |
| `SupabaseClient.CreateDocument` | backend/database/supabase_client.py:38-50 | connects if needed; then stamps the caller's document, sends table+insert of the stamped document, and returns the created id; on a missing setting nothing is stamped or sent |
| `SupabaseClient.GetDocument` | backend/database/supabase_client.py:52-65 | sends table, select, one `Eq` per filter key and `Limit(1)`; returns the first row or none |
| `SupabaseClient.GetDocuments` | backend/database/supabase_client.py:67-96 | sends table, select, the `$in`-aware filters (none for an absent filter), the ordering and the paging call; returns the rows as they came |
| `SupabaseClient.UpdateDocument` | backend/database/supabase_client.py:98-113 | writes `updated_at` into the caller's update map, sends table, one `Eq` per filter key and `Update` of that map; returns whether any row came back |
| `SupabaseClient.DeleteDocument` | backend/database/supabase_client.py:115-126 | sends table, one `Eq` per filter key and `Delete`; returns whether any row came back |
| `SupabaseClient.CountDocuments` | backend/database/supabase_client.py:128-140 | sends table, an exact-count select and one `Eq` per filter key; returns the count or 0 |
| `Adapter.IdToSupabase` | backend/database/database_adapter.py:48-52 | the converted filter has no `_id`; when `_id` was present, `id` holds its value; without `_id` the filter is unchanged |
| `Adapter.IdToSupabaseFields` | backend/database/database_adapter.py:48-52 | afterwards `_id` is absent; if it was present `id` holds its old value, overwriting any `id`, and a new `id` goes last; every other key keeps its value; distinct keys stay distinct |
| `Adapter.IdToSupabaseIdempotent` | backend/database/database_adapter.py:48-52 | converting twice is converting once |
| `Adapter.WithMongoId` | backend/database/database_adapter.py:54-58 | a row with `id` and no `_id` gains `_id` equal to `id`; any other row, the empty row included, is returned as it was; `id` never changes |
| `Adapter.WithMongoIdFields` | backend/database/database_adapter.py:54-58 | `_id = id` is appended only when `id` is present and `_id` absent; no other key, `id` and an existing `_id` included, changes |
| `Adapter.WithMongoIdIdempotent` | backend/database/database_adapter.py:54-58 | reshaping twice is reshaping once |
| `Adapter.IdRoundTrip` | backend/database/database_adapter.py:48-58 | a row with `id` and no `_id`, reshaped and then converted as a filter, is exactly the original row |
| `Adapter.CanonicalIdFilter` | backend/database/database_adapter.py:48-58 | the `_id` a caller sees on a row equals its `id`, and the filter `{"_id": that}` reaches the store as `{"id": that}` |
| `Adapter.ToMongoFormat` | backend/database/database_adapter.py:97 | same length and order as the rows, each reshaped by the `_id` rule |
| `Adapter.ToMongoFormatShape` | backend/database/database_adapter.py:97 | every returned row keeps all its fields other than `_id`, and every row that has `id` has `_id` |
| `Adapter.ToMongoOne` | backend/database/database_adapter.py:71-72 | a failure passes through; a document comes back exactly when the store returned a non-empty row, and it is that row reshaped by the `_id` rule |
| `Adapter.NormalizeSort` | backend/database/database_adapter.py:84-92 | only `sort[0]` is read: a pair `(f, d)` gives `(f, d == -1)` for any field and direction, a bare string `f` gives `(f, ascending)`, and any other entry, an empty list or a non-list sort gives no field and ascending; it fails with ValueError if and only if `sort[0]` is a tuple of other than two items |
| `Adapter.SortPairRoundTrip` | backend/database/database_adapter.py:86-90 | a list starting with `(field, 1)` or `(field, -1)` gives that field and ascending or descending, whatever follows |
| `Adapter.SortUsesFirstEntryOnly` | backend/database/database_adapter.py:86-92 | entries after `sort[0]` never change the result |
| `Adapter.SortDirection` | backend/database/database_adapter.py:84-92 | descending if and only if `sort[0]` is a pair whose direction is -1; an `Order` call is made if and only if `sort[0]` is a pair with a truthy field or a non-empty bare field name |
| `Adapter.Columns` | backend/database/database_adapter.py:107-111 | the columns sent are `update["$set"]` when present, else the whole mapping (`ForwardedUpdate`), with `updated_at` set to now as at backend/database/supabase_client.py:105 and every other key kept; it fails with TypeError exactly when that forwarded value is not a mapping |
| `Adapter.SetDropsOtherKeys` | backend/database/database_adapter.py:107-109 | with `$set` present the column map is `update["$set"]` plus `updated_at` and depends on no other top-level key |
| `Adapter.OperatorsPassThrough` | backend/database/database_adapter.py:107-111 | without `$set` every key, `$inc` and `$push` included, reaches the store as written, with only `updated_at` replaced by now |
| `Adapter.SetWrapperIsTransparent` | backend/database/database_adapter.py:107-109 | `{"$set": m}` and `m` itself send the same columns |
| `Adapter.SetExample` | backend/database/database_adapter.py:107-111 | `{"$set": {"name": "X"}}` and `{"name": "X"}` both send exactly `{"name": "X", "updated_at": now}` |
| `Adapter.DatabaseAdapter.constructor` | backend/database/database_adapter.py:18-20 | the backend name is the lower-cased setting, "mongodb" when unset; not connected |
| `Adapter.DatabaseAdapter.Connect` | backend/database/database_adapter.py:22-40 | "supabase" connects the relational client; any other name needs a non-empty MONGO_URL (else ValueError) and opens the document store; success sets the flag, failure leaves it as it was |
| `Adapter.DatabaseAdapter.Disconnect` | backend/database/database_adapter.py:42-46 | the flag is always false afterwards; the document store is closed only when the name is exactly "mongodb" and the adapter was connected |
| `Adapter.DatabaseAdapter.ConvertMongoIdQuery` | backend/database/database_adapter.py:48-52 | rewrites the caller's filter in place by the `_id` to `id` rule and returns the same object |
| `Adapter.DatabaseAdapter.CreateDocument` | backend/database/database_adapter.py:60-65 | relational: exactly the relational create, with no identifier conversion; otherwise the call is forwarded unchanged and its answer returned |
| `Adapter.DatabaseAdapter.GetDocument` | backend/database/database_adapter.py:67-74 | relational: the filter is always converted, the single-row chain is sent, a returned non-empty row gains `_id`; otherwise forwarded unchanged |
| `Adapter.DatabaseAdapter.GetDocuments` | backend/database/database_adapter.py:76-99 | relational: a non-empty filter is converted, the sort is normalised from `sort[0]` (a bad tuple fails before any call), the list chain is sent, and the rows come back in order, each reshaped; otherwise forwarded unchanged |
| `Adapter.DatabaseAdapter.UpdateDocument` | backend/database/database_adapter.py:101-113 | relational: the filter is always converted; exactly `update["$set"]` (else the whole map) plus `updated_at` is sent, and the timestamp shows up in the caller's mapping; a `$set` value that is not a mapping fails; otherwise forwarded unchanged |
| `Adapter.DatabaseAdapter.DeleteDocument` | backend/database/database_adapter.py:115-121 | relational: the filter is always converted and the delete chain sent; otherwise forwarded unchanged |
| `Adapter.DatabaseAdapter.CountDocuments` | backend/database/database_adapter.py:123-130 | relational: a non-empty filter is converted and the exact-count chain sent; otherwise forwarded unchanged |
| `Adapter.DatabaseAdapter.Aggregate` | backend/database/database_adapter.py:132-140 | relational: the result is the empty list for every pipeline and no backend is called; otherwise forwarded unchanged |

## Left out

- `backend/database/mongodb.py` is not part of this model. Its operations, `connect_to_mongo` and `close_mongo_connection` appear only as a log of forwarded calls and an open flag. Their answers are parameters, and their failures are not modelled. Their effects on the dicts passed to them are not modelled either: forwarded dicts are treated as untouched, so a document-store insert that writes `_id` into the caller's document is not captured.
- The Supabase client library and the network: `create_client` is assumed to succeed. `.execute()` answers with a `Reply` parameter, which may be a raised backend error. The model does not check that the library accepts a given builder chain.
- Logging (`logger.info`, `logger.warning`, `logger.error`) is not modelled. This includes the warning `aggregate` logs.
- `async`/`await` and concurrent callers are not modelled. Each call runs to completion in turn.
- The environment is read once, when the adapter is built, and stays fixed for its lifetime. The source reads MONGO_URL each time `connect` runs (backend/database/database_adapter.py:30) and the Supabase settings when the first client is created (backend/database/supabase_client.py:17-18), so a change to them between those reads is not modelled.
- The module globals `db_adapter` and `get_database` (backend/database/database_adapter.py:143-152) are not modelled. `DATABASE_TYPE` is a constructor argument.
- Adapter.DatabaseAdapter.constructor: `str.lower()` is modelled for ASCII letters only.
- SupabaseClient.CreateDocument: the clock is read once. The source reads it twice, so its `created_at` and `updated_at` can differ by the time between the two reads.
- SupabaseClient.UpdateDocument: requires the filter and the update map to be different dict objects. The source does not forbid passing one dict as both.
- Adapter.DatabaseAdapter.UpdateDocument: requires the filter and the update map to be different dict objects. The mapping under `$set` is modelled as a copy whose timestamp is written back into the caller's `$set` entry. Other holders of that nested mapping are not modelled.
- Adapter.NormalizeSort: the `ValueError` for a badly shaped sort tuple carries a fixed message, not Python's exact text. The same holds for the `TypeError` of a non-mapping `$set` value in `Adapter.DatabaseAdapter.UpdateDocument`.
- `PyDict` and `Dict` do not require distinct keys, so the model admits sequences that no Python dict produces. Every contract holds for all of them, and `DistinctKeys` is proved to be kept where that matters.
- Values have no floats or datetime objects. Timestamps are ISO strings, and a sort direction of `-1.0` is not modelled.
- Returned rows are values. `_convert_supabase_to_mongo_format` works in place on rows that nothing else holds, so it is modelled by the function `WithMongoId`.
- The filter of `get_document`, `update_document` and `delete_document` is always a mapping. With `None` the source fails on `"_id" in None`.
- `limit` is an optional integer and `skip` an integer. Other argument types are not modelled.
