/** The backend-agnostic persistence API. `DatabaseAdapter` holds the backend
    selector and the connection flag, and routes every operation either to the
    document store unchanged or through the translations for the relational
    store: the `_id`/`id` identifier mapping, the sort normalisation, the `$set`
    unwrap, and the reshaping of returned rows. */
module Adapter {
  import opened Runtime
  import S = SupabaseClient
  import Mongo

  const SupabaseType := "supabase"
  const MongoType := "mongodb"
  const MongoUrlMissing := "MONGO_URL not found for MongoDB connection"
  /** The message of a sort entry that is a tuple of other than two items. */
  const SortUnpack := "cannot unpack the sort entry into (field, direction)"
  /** The message of assigning `updated_at` into a `$set` value that is not a mapping. */
  const NotAMapping := "object does not support item assignment"

  function LowerChar(c: char): char {
    if 'A' <= c <= 'Z' then (c as int + 32) as char else c
  }

  /** `str.lower()` on ASCII letters. */
  function Lower(s: string): string {
    seq(|s|, i requires 0 <= i < |s| => LowerChar(s[i]))
  }

  // ----- Identifier mapping -----

  /** `_convert_mongo_id_query`: the value under `_id` moves to `id`. */
  function IdToSupabase(query: Dict): (q: Dict)
    ensures !Has(q, "_id")
    ensures Has(query, "_id") ==> Get(q, "id") == Get(query, "_id")
    ensures !Has(query, "_id") ==> q == query
  {
    if Has(query, "_id") then
      var v := Get(query, "_id").value;
      GetRemove(query, "_id", "_id");
      GetSet(Remove(query, "_id"), "id", v, "_id");
      GetSet(Remove(query, "_id"), "id", v, "id");
      Set(Remove(query, "_id"), "id", v)
    else
      query
  }

  /** `_convert_supabase_to_mongo_format`: a row with `id` and no `_id` gains `_id`. */
  function WithMongoId(doc: Dict): (row: Dict)
    ensures Has(doc, "id") && !Has(doc, "_id") ==> Get(row, "_id") == Get(doc, "id")
    ensures Has(doc, "_id") || !Has(doc, "id") ==> row == doc
    ensures Get(row, "id") == Get(doc, "id")
  {
    if doc != [] && Has(doc, "id") && !Has(doc, "_id") then
      var v := Get(doc, "id").value;
      GetSet(doc, "_id", v, "_id");
      GetSet(doc, "_id", v, "id");
      Set(doc, "_id", v)
    else
      doc
  }

  lemma IdToSupabaseFields(query: Dict)
    ensures !Has(IdToSupabase(query), "_id")
    ensures Has(query, "_id") ==> Get(IdToSupabase(query), "id") == Get(query, "_id")
    ensures !Has(query, "_id") ==> IdToSupabase(query) == query
    ensures forall k :: k != "_id" && k != "id" ==> Get(IdToSupabase(query), k) == Get(query, k)
    ensures Has(query, "_id") && !Has(query, "id") ==>
              IdToSupabase(query) == Remove(query, "_id") + [("id", Get(query, "_id").value)]
    ensures DistinctKeys(query) ==> DistinctKeys(IdToSupabase(query))
  {
    if Has(query, "_id") {
      var v := Get(query, "_id").value;
      var rest := Remove(query, "_id");
      GetRemove(query, "_id", "_id");
      GetSet(rest, "id", v, "_id");
      GetSet(rest, "id", v, "id");
      forall k | k != "_id" && k != "id"
        ensures Get(IdToSupabase(query), k) == Get(query, k)
      {
        GetSet(rest, "id", v, k);
        GetRemove(query, "_id", k);
      }
      if !Has(query, "id") {
        GetRemove(query, "_id", "id");
        SetMissing(rest, "id", v);
      }
      if DistinctKeys(query) {
        RemoveKeepsDistinct(query, "_id");
        SetKeepsDistinct(rest, "id", v);
      }
    }
  }

  /** Converting a converted filter changes nothing. */
  lemma IdToSupabaseIdempotent(query: Dict)
    ensures IdToSupabase(IdToSupabase(query)) == IdToSupabase(query)
  {
    IdToSupabaseFields(query);
  }

  lemma WithMongoIdFields(doc: Dict)
    ensures forall k :: k != "_id" ==> Get(WithMongoId(doc), k) == Get(doc, k)
    ensures Has(doc, "_id") || !Has(doc, "id") ==> WithMongoId(doc) == doc
    ensures Has(doc, "id") && !Has(doc, "_id") ==> WithMongoId(doc) == doc + [("_id", Get(doc, "id").value)]
    ensures Has(WithMongoId(doc), "_id") <==> Has(doc, "_id") || Has(doc, "id")
    ensures Has(doc, "id") && !Has(doc, "_id") ==> Get(WithMongoId(doc), "_id") == Get(doc, "id")
    ensures DistinctKeys(doc) ==> DistinctKeys(WithMongoId(doc))
  {
    if Has(doc, "id") && !Has(doc, "_id") {
      var v := Get(doc, "id").value;
      SetMissing(doc, "_id", v);
      GetSet(doc, "_id", v, "_id");
      forall k | k != "_id"
        ensures Get(WithMongoId(doc), k) == Get(doc, k)
      {
        GetSet(doc, "_id", v, k);
      }
      if DistinctKeys(doc) {
        SetKeepsDistinct(doc, "_id", v);
      }
    }
  }

  /** Reshaping an already reshaped row changes nothing. */
  lemma WithMongoIdIdempotent(doc: Dict)
    ensures WithMongoId(WithMongoId(doc)) == WithMongoId(doc)
  {
    WithMongoIdFields(doc);
    WithMongoIdFields(WithMongoId(doc));
  }

  /** A relational row reshaped for the caller and then used as a filter
      converts back to exactly the row. */
  lemma {:induction false} IdRoundTrip(row: Dict)
    requires Has(row, "id") && !Has(row, "_id")
    ensures IdToSupabase(WithMongoId(row)) == row
  {
    var v := Get(row, "id").value;
    WithMongoIdFields(row);
    assert WithMongoId(row) == row + [("_id", v)];
    GetSet(row, "_id", v, "_id");
    RemoveAppended(row, "_id", v);
    SetSame(row, "id", v);
  }

  /** A filter built from the caller-facing `_id` of a returned row reaches the
      relational store as a filter on `id` with the row's own identifier. */
  lemma CanonicalIdFilter(row: Dict)
    requires Has(row, "id") && !Has(row, "_id")
    ensures var canonical := Get(WithMongoId(row), "_id");
            && canonical == Get(row, "id")
            && IdToSupabase([("_id", canonical.value)]) == [("id", Get(row, "id").value)]
  {
    WithMongoIdFields(row);
    var filter := [("_id", Get(row, "id").value)];
    assert filter[1..] == [];
    assert Remove(filter, "_id") == [];
  }

  /** The list comprehension over returned rows. */
  function ToMongoFormat(rows: seq<Dict>): (docs: seq<Dict>)
    ensures |docs| == |rows|
    ensures forall i :: 0 <= i < |rows| ==> docs[i] == WithMongoId(rows[i])
  {
    seq(|rows|, i requires 0 <= i < |rows| => WithMongoId(rows[i]))
  }

  /** Every returned row keeps its position and its fields, and every row that
      has an `id` can be addressed by `_id`. */
  lemma ToMongoFormatShape(rows: seq<Dict>)
    ensures forall i, k :: 0 <= i < |rows| && k != "_id" ==> Get(ToMongoFormat(rows)[i], k) == Get(rows[i], k)
    ensures forall i :: 0 <= i < |rows| && Has(rows[i], "id") ==> Has(ToMongoFormat(rows)[i], "_id")
  {
    forall i | 0 <= i < |rows|
      ensures forall k :: k != "_id" ==> Get(ToMongoFormat(rows)[i], k) == Get(rows[i], k)
      ensures Has(rows[i], "id") ==> Has(ToMongoFormat(rows)[i], "_id")
    {
      WithMongoIdFields(rows[i]);
    }
  }

  /** `get_document` on the relational path: a returned row is reshaped; an
      empty row, being falsy, reads as no document. */
  function ToMongoOne(r: Result<Option<Dict>>): (out: Result<Option<Dict>>)
    ensures r.Err? ==> out == r
    ensures out.Ok? <==> r.Ok?
    ensures out.Ok? ==> (out.value.Some? <==> r.value.Some? && r.value.value != [])
    ensures out.Ok? && out.value.Some? ==> out.value.value == WithMongoId(r.value.value)
  {
    match r
    case Ok(Some(row)) => Ok(if row != [] then Some(WithMongoId(row)) else None)
    case _ => r
  }

  function ToMongoMany(r: Result<seq<Dict>>): Result<seq<Dict>> {
    match r
    case Ok(rows) => Ok(ToMongoFormat(rows))
    case Err(e) => Err(e)
  }

  // ----- Sort normalisation -----

  /** `sort_by, sort_desc` from a document-store sort list: only `sort[0]` is
      read; a `(field, direction)` pair sorts descending for direction -1, a
      bare field ascending; anything else leaves the result unsorted. */
  function NormalizeSort(sort: Value): (r: Result<(Value, bool)>)
    ensures !sort.VList? || sort.items == [] ==> r == Ok((VNone, false))
    ensures sort.VList? && sort.items != [] && sort.items[0].VTuple? && |sort.items[0].elems| == 2 ==>
              r == Ok((sort.items[0].elems[0], sort.items[0].elems[1] == VInt(-1)))
    ensures sort.VList? && sort.items != [] && sort.items[0].VStr? ==> r == Ok((sort.items[0], false))
    ensures sort.VList? && sort.items != [] && !sort.items[0].VTuple? && !sort.items[0].VStr? ==> r == Ok((VNone, false))
    ensures r.Err? <==> sort.VList? && sort.items != [] && sort.items[0].VTuple? && |sort.items[0].elems| != 2
    ensures r.Err? ==> r.error == ValueError(SortUnpack)
  {
    if Truthy(sort) && sort.VList? then
      match sort.items[0]
      case VTuple(elems) =>
        if |elems| == 2 then Ok((elems[0], elems[1] == VInt(-1))) else Err(ValueError(SortUnpack))
      case VStr(field) => Ok((VStr(field), false))
      case _ => Ok((VNone, false))
    else
      Ok((VNone, false))
  }

  /** The pair a caller writes, `(field, 1)` or `(field, -1)`, comes back as
      that field and direction, whatever entries follow it. */
  lemma SortPairRoundTrip(field: string, desc: bool, rest: seq<Value>)
    ensures NormalizeSort(VList([VTuple([VStr(field), VInt(if desc then -1 else 1)])] + rest)) == Ok((VStr(field), desc))
  {
  }

  /** Only the first entry of a sort list is read. */
  lemma SortUsesFirstEntryOnly(first: Value, rest: seq<Value>)
    ensures NormalizeSort(VList([first] + rest)) == NormalizeSort(VList([first]))
  {
  }

  /** Descending order is asked for exactly when the first entry is a pair
      whose direction is -1; ordering at all exactly when the field it names is
      truthy. */
  lemma SortDirection(sort: Value)
    requires NormalizeSort(sort).Ok?
    ensures var (field, desc) := NormalizeSort(sort).value;
            && (desc <==> sort.VList? && sort.items != [] && sort.items[0].VTuple? &&
                          sort.items[0].elems[1] == VInt(-1))
            && (S.SortOps(field, desc) != [] <==>
                  sort.VList? && sort.items != [] &&
                  ((sort.items[0].VTuple? && Truthy(sort.items[0].elems[0])) ||
                   (sort.items[0].VStr? && sort.items[0].s != "")))
  {
  }

  // ----- Update forwarding -----

  /** What `update_document` forwards on the relational path: `update["$set"]`
      when that key is present, else the whole mapping. */
  function ForwardedUpdate(update: Dict): Value {
    if Has(update, "$set") then Get(update, "$set").value else VDict(update)
  }

  /** The column map the relational store receives: the forwarded mapping with
      `updated_at` set to now; a `$set` value that is not a mapping fails at
      that assignment. */
  function Columns(update: Dict, now: string): (c: Result<Dict>)
    ensures c.Ok? <==> ForwardedUpdate(update).VDict?
    ensures c.Err? ==> c.error == TypeError(NotAMapping)
    ensures c.Ok? ==> Get(c.value, "updated_at") == Some(VStr(now))
    ensures c.Ok? ==> forall k :: k != "updated_at" ==> Get(c.value, k) == Get(ForwardedUpdate(update).entries, k)
  {
    match ForwardedUpdate(update)
    case VDict(m) => S.TouchedFields(m, now); Ok(S.Touched(m, now))
    case _ => Err(TypeError(NotAMapping))
  }

  /** With `$set`, the column map depends on nothing but `update["$set"]`: every
      other top-level key is dropped. */
  lemma SetDropsOtherKeys(update: Dict, other: Dict, now: string)
    requires Has(update, "$set") && Get(other, "$set") == Get(update, "$set")
    ensures Columns(update, now) == Columns(other, now)
    ensures Get(update, "$set").value.VDict? ==>
              Columns(update, now) == Ok(S.Touched(Get(update, "$set").value.entries, now))
  {
  }

  /** Without `$set`, every key reaches the store as written, update operators
      such as `$inc` and `$push` included; only `updated_at` is replaced. */
  lemma OperatorsPassThrough(update: Dict, now: string)
    requires !Has(update, "$set")
    ensures Columns(update, now).Ok?
    ensures forall k :: k != "updated_at" ==> Get(Columns(update, now).value, k) == Get(update, k)
    ensures Get(Columns(update, now).value, "updated_at") == Some(VStr(now))
  {
    S.TouchedFields(update, now);
  }

  /** Wrapping a flat mapping in `$set` sends the same columns as the flat mapping. */
  lemma SetWrapperIsTransparent(fields: Dict, now: string)
    requires !Has(fields, "$set")
    ensures Columns([("$set", VDict(fields))], now) == Columns(fields, now)
  {
  }

  /** The example `{"$set": {"name": "X"}}`: the store receives exactly
      `{"name": "X", "updated_at": now}`. */
  lemma SetExample(now: string)
    ensures Columns([("$set", VDict([("name", VStr("X"))]))], now) ==
            Ok([("name", VStr("X")), ("updated_at", VStr(now))])
    ensures Columns([("name", VStr("X"))], now) == Ok([("name", VStr("X")), ("updated_at", VStr(now))])
  {
    var fields := [("name", VStr("X"))];
    assert fields[1..] == [];
    SetMissing(fields, "updated_at", VStr(now));
    assert S.Touched(fields, now) == [("name", VStr("X")), ("updated_at", VStr(now))];
    assert Columns(fields, now) == Ok(S.Touched(fields, now));
    SetWrapperIsTransparent(fields, now);
  }

  /** The caller's update mapping after a relational update: the timestamp lands
      in the mapping that was forwarded, which is the `$set` value when there
      is one. */
  function CallerUpdateAfter(update: Dict, columns: Dict): Dict {
    if Has(update, "$set") then Set(update, "$set", VDict(columns)) else columns
  }

  class DatabaseAdapter {
    const dbType: string
    var isConnected: bool
    const env: Env
    const supabase: S.SupabaseDb
    const mongo: Mongo.MongoDb

    /** `DATABASE_TYPE` comes in as `databaseType`; unset means "mongodb". */
    constructor (databaseType: Option<string>, env: Env, supabase: S.SupabaseDb, mongo: Mongo.MongoDb)
      ensures dbType == Lower(if databaseType.Some? then databaseType.value else MongoType)
      ensures !isConnected
      ensures this.env == env && this.supabase == supabase && this.mongo == mongo
    {
      dbType := Lower(if databaseType.Some? then databaseType.value else MongoType);
      isConnected := false;
      this.env := env;
      this.supabase := supabase;
      this.mongo := mongo;
    }

    /** Any other backend name than "supabase" takes the document-store branch. */
    method Connect() returns (r: Result<()>)
      modifies this, supabase, mongo
      ensures isConnected == (r.Ok? || old(isConnected))
      ensures dbType == SupabaseType ==>
                && unchanged(mongo)
                && supabase.sent == old(supabase.sent)
                && (r.Ok? <==> S.CanConnect(env))
                && (r.Ok? ==> supabase.client == Some(S.NewClient(env)))
                && (r.Err? ==> r.error == ValueError(S.MissingSettings) && supabase.client == old(supabase.client))
      ensures dbType != SupabaseType ==>
                && unchanged(supabase)
                && (r.Ok? <==> Present(env.mongoUrl))
                && (r.Ok? ==> mongo.open && mongo.calls == old(mongo.calls))
                && (r.Err? ==> r.error == ValueError(MongoUrlMissing) && unchanged(mongo))
    {
      if dbType == SupabaseType {
        var connected := S.ConnectToSupabase(supabase, env);
        if connected.Err? {
          return Err(connected.error);
        }
      } else {
        if !Present(env.mongoUrl) {
          return Err(ValueError(MongoUrlMissing));
        }
        mongo.Connect();
      }
      isConnected := true;
      r := Ok(());
    }

    /** Closes the document store only for the exact name "mongodb" and only
        when connected; the relational client is left as it is. */
    method Disconnect()
      modifies this, mongo
      ensures !isConnected
      ensures dbType == MongoType && old(isConnected) ==> !mongo.open && mongo.calls == old(mongo.calls)
      ensures !(dbType == MongoType && old(isConnected)) ==> unchanged(mongo)
    {
      if dbType == MongoType && isConnected {
        mongo.Close();
      }
      isConnected := false;
    }

    /** `_convert_mongo_id_query`, in place on the caller's filter. */
    method ConvertMongoIdQuery(query: PyDict) returns (r: PyDict)
      modifies query
      ensures r == query
      ensures query.entries == IdToSupabase(old(query.entries))
    {
      if Has(query.entries, "_id") {
        var id := query.Pop("_id");
        query.SetItem("id", id);
      }
      r := query;
    }

    /** No identifier conversion on either path. */
    method CreateDocument(collection: string, document: PyDict, now: string,
                          reply: S.Reply, mongoAnswer: Result<Value>) returns (r: Result<Value>)
      modifies supabase, mongo, document
      ensures dbType == SupabaseType ==>
                && unchanged(mongo)
                && supabase.client == S.HeldAfter(old(supabase.client), env)
                && (supabase.client.None? ==>
                      r == Err(ValueError(S.MissingSettings)) && supabase.sent == old(supabase.sent) &&
                      document.entries == old(document.entries))
                && (supabase.client.Some? ==>
                      && document.entries == S.Stamped(old(document.entries), now)
                      && supabase.sent == old(supabase.sent) + [S.CreateChain(collection, document.entries)]
                      && r == S.CreatedId(reply))
      ensures dbType != SupabaseType ==>
                && unchanged(supabase) && unchanged(document)
                && mongo.open == old(mongo.open)
                && mongo.calls == old(mongo.calls) + [Mongo.CreateDocument(collection, document.entries)]
                && r == mongoAnswer
    {
      if dbType == SupabaseType {
        r := S.CreateDocument(supabase, env, collection, document, now, reply);
      } else {
        mongo.Forward(Mongo.CreateDocument(collection, document.entries));
        r := mongoAnswer;
      }
    }

    method GetDocument(collection: string, query: PyDict,
                       reply: S.Reply, mongoAnswer: Result<Option<Dict>>) returns (r: Result<Option<Dict>>)
      modifies supabase, mongo, query
      ensures dbType == SupabaseType ==>
                && unchanged(mongo)
                && query.entries == IdToSupabase(old(query.entries))
                && supabase.client == S.HeldAfter(old(supabase.client), env)
                && (supabase.client.None? ==>
                      r == Err(ValueError(S.MissingSettings)) && supabase.sent == old(supabase.sent))
                && (supabase.client.Some? ==>
                      && supabase.sent == old(supabase.sent) + [S.GetOneChain(collection, query.entries)]
                      && r == ToMongoOne(S.FirstRow(reply)))
      ensures dbType != SupabaseType ==>
                && unchanged(supabase) && unchanged(query)
                && mongo.open == old(mongo.open)
                && mongo.calls == old(mongo.calls) + [Mongo.GetDocument(collection, query.entries)]
                && r == mongoAnswer
    {
      if dbType == SupabaseType {
        var converted := ConvertMongoIdQuery(query);
        var result := S.GetDocument(supabase, env, collection, converted, reply);
        r := ToMongoOne(result);
      } else {
        mongo.Forward(Mongo.GetDocument(collection, query.entries));
        r := mongoAnswer;
      }
    }

    /** The filter is converted only when it is a non-empty mapping, which
        leaves an absent or empty filter as it was. */
    method GetDocuments(collection: string, query: PyDict?, sort: Value, limit: Option<int>, skip: int,
                        reply: S.Reply, mongoAnswer: Result<seq<Dict>>) returns (r: Result<seq<Dict>>)
      modifies supabase, mongo, query
      ensures dbType == SupabaseType ==>
                && unchanged(mongo)
                && (query != null ==> query.entries == IdToSupabase(old(query.entries)))
                && (NormalizeSort(sort).Err? ==>
                      r == Err(NormalizeSort(sort).error) && unchanged(supabase))
                && (NormalizeSort(sort).Ok? ==>
                      var (sortBy, sortDesc) := NormalizeSort(sort).value;
                      && supabase.client == S.HeldAfter(old(supabase.client), env)
                      && (supabase.client.None? ==>
                            r == Err(ValueError(S.MissingSettings)) && supabase.sent == old(supabase.sent))
                      && (supabase.client.Some? ==>
                            && supabase.sent == old(supabase.sent) +
                                 [S.GetManyChain(collection, S.EntriesOf(query), sortBy, sortDesc, limit, skip)]
                            && r == ToMongoMany(S.AllRows(reply))))
      ensures dbType != SupabaseType ==>
                && unchanged(supabase) && (query != null ==> unchanged(query))
                && mongo.open == old(mongo.open)
                && mongo.calls == old(mongo.calls) +
                     [Mongo.GetDocuments(collection, if query == null then None else Some(query.entries), sort, limit, skip)]
                && r == mongoAnswer
    {
      if dbType == SupabaseType {
        var filter := query;
        if query != null && query.entries != [] {
          filter := ConvertMongoIdQuery(query);
        }
        var normalized := NormalizeSort(sort);
        if normalized.Err? {
          return Err(normalized.error);
        }
        var (sortBy, sortDesc) := normalized.value;
        var rows := S.GetDocuments(supabase, env, collection, filter, sortBy, sortDesc, limit, skip, reply);
        r := ToMongoMany(rows);
      } else {
        mongo.Forward(Mongo.GetDocuments(collection, if query == null then None else Some(query.entries), sort, limit, skip));
        r := mongoAnswer;
      }
    }

    /** The filter and the update expression are distinct mapping objects. */
    method UpdateDocument(collection: string, query: PyDict, update: PyDict, now: string,
                          reply: S.Reply, mongoAnswer: Result<bool>) returns (r: Result<bool>)
      requires query != update
      modifies supabase, mongo, query, update
      ensures dbType == SupabaseType ==>
                && unchanged(mongo)
                && query.entries == IdToSupabase(old(query.entries))
                && supabase.client == S.HeldAfter(old(supabase.client), env)
                && (supabase.client.None? ==>
                      r == Err(ValueError(S.MissingSettings)) && supabase.sent == old(supabase.sent) &&
                      update.entries == old(update.entries))
                && (supabase.client.Some? && Columns(old(update.entries), now).Err? ==>
                      r == Err(TypeError(NotAMapping)) && supabase.sent == old(supabase.sent) &&
                      update.entries == old(update.entries))
                && (supabase.client.Some? && Columns(old(update.entries), now).Ok? ==>
                      var columns := Columns(old(update.entries), now).value;
                      && supabase.sent == old(supabase.sent) + [S.UpdateChain(collection, query.entries, columns)]
                      && update.entries == CallerUpdateAfter(old(update.entries), columns)
                      && r == S.AnyRows(reply))
      ensures dbType != SupabaseType ==>
                && unchanged(supabase) && unchanged(query) && unchanged(update)
                && mongo.open == old(mongo.open)
                && mongo.calls == old(mongo.calls) + [Mongo.UpdateDocument(collection, query.entries, update.entries)]
                && r == mongoAnswer
    {
      if dbType == SupabaseType {
        var converted := ConvertMongoIdQuery(query);
        if Has(update.entries, "$set") {
          var forwarded := Get(update.entries, "$set").value;
          if forwarded.VDict? {
            // `update = update["$set"]` aliases the nested mapping; the timestamp
            // written into it shows up inside the caller's `$set` value.
            var inner := new PyDict(forwarded.entries);
            r := S.UpdateDocument(supabase, env, collection, converted, inner, now, reply);
            if supabase.client.Some? {
              update.entries := Set(update.entries, "$set", VDict(inner.entries));
            }
          } else {
            var client := S.GetSupabaseClient(supabase, env);
            r := if client.Err? then Err(client.error) else Err(TypeError(NotAMapping));
          }
        } else {
          r := S.UpdateDocument(supabase, env, collection, converted, update, now, reply);
        }
      } else {
        mongo.Forward(Mongo.UpdateDocument(collection, query.entries, update.entries));
        r := mongoAnswer;
      }
    }

    method DeleteDocument(collection: string, query: PyDict,
                          reply: S.Reply, mongoAnswer: Result<bool>) returns (r: Result<bool>)
      modifies supabase, mongo, query
      ensures dbType == SupabaseType ==>
                && unchanged(mongo)
                && query.entries == IdToSupabase(old(query.entries))
                && supabase.client == S.HeldAfter(old(supabase.client), env)
                && (supabase.client.None? ==>
                      r == Err(ValueError(S.MissingSettings)) && supabase.sent == old(supabase.sent))
                && (supabase.client.Some? ==>
                      && supabase.sent == old(supabase.sent) + [S.DeleteChain(collection, query.entries)]
                      && r == S.AnyRows(reply))
      ensures dbType != SupabaseType ==>
                && unchanged(supabase) && unchanged(query)
                && mongo.open == old(mongo.open)
                && mongo.calls == old(mongo.calls) + [Mongo.DeleteDocument(collection, query.entries)]
                && r == mongoAnswer
    {
      if dbType == SupabaseType {
        var converted := ConvertMongoIdQuery(query);
        r := S.DeleteDocument(supabase, env, collection, converted, reply);
      } else {
        mongo.Forward(Mongo.DeleteDocument(collection, query.entries));
        r := mongoAnswer;
      }
    }

    /** Like `GetDocuments`, the filter is converted only when non-empty. */
    method CountDocuments(collection: string, query: PyDict?,
                          reply: S.Reply, mongoAnswer: Result<int>) returns (r: Result<int>)
      modifies supabase, mongo, query
      ensures dbType == SupabaseType ==>
                && unchanged(mongo)
                && (query != null ==> query.entries == IdToSupabase(old(query.entries)))
                && supabase.client == S.HeldAfter(old(supabase.client), env)
                && (supabase.client.None? ==>
                      r == Err(ValueError(S.MissingSettings)) && supabase.sent == old(supabase.sent))
                && (supabase.client.Some? ==>
                      && supabase.sent == old(supabase.sent) + [S.CountChain(collection, S.EntriesOf(query))]
                      && r == S.CountOf(reply))
      ensures dbType != SupabaseType ==>
                && unchanged(supabase) && (query != null ==> unchanged(query))
                && mongo.open == old(mongo.open)
                && mongo.calls == old(mongo.calls) +
                     [Mongo.CountDocuments(collection, if query == null then None else Some(query.entries))]
                && r == mongoAnswer
    {
      if dbType == SupabaseType {
        var filter := query;
        if query != null && query.entries != [] {
          filter := ConvertMongoIdQuery(query);
        }
        r := S.CountDocuments(supabase, env, collection, filter, reply);
      } else {
        mongo.Forward(Mongo.CountDocuments(collection, if query == null then None else Some(query.entries)));
        r := mongoAnswer;
      }
    }

    /** On the relational backend every pipeline yields no documents, and
        neither backend is called. */
    method Aggregate(collection: string, pipeline: seq<Dict>,
                     mongoAnswer: Result<seq<Dict>>) returns (r: Result<seq<Dict>>)
      modifies mongo
      ensures dbType == SupabaseType ==> r == Ok([]) && unchanged(mongo)
      ensures dbType != SupabaseType ==>
                && mongo.open == old(mongo.open)
                && mongo.calls == old(mongo.calls) + [Mongo.Aggregate(collection, pipeline)]
                && r == mongoAnswer
    {
      if dbType == SupabaseType {
        r := Ok([]);
      } else {
        mongo.Forward(Mongo.Aggregate(collection, pipeline));
        r := mongoAnswer;
      }
    }
  }
}
