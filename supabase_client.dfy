/** The relational backend: the module-global Supabase client, and the
    operations that turn a filter mapping, a sort field and offset/limit into a
    chain of PostgREST query-builder calls and read the reply.

    Nothing goes over the network here. A chain of builder calls is recorded
    as a sequence of `Op`s when `execute()` runs it, and what `execute()`
    answers is a parameter of each operation. */
module SupabaseClient {
  import opened Runtime

  /** One call on the query builder, in the order the chain makes them. */
  datatype Op =
    | Table(name: string)               // client.table(name)
    | Select(exactCount: bool)          // .select("*"), or .select("*", count="exact")
    | Insert(row: Dict)                 // .insert(row)
    | Eq(column: string, value: Value)  // .eq(column, value)
    | In(column: string, values: Value) // .in_(column, values)
    | Order(field: Value, desc: bool)   // .order(field, desc=desc)
    | Range(first: int, last: int)      // .range(first, last), both ends included
    | Limit(count: int)                 // .limit(count)
    | Update(changes: Dict)             // .update(changes)
    | Delete                            // .delete()

  /** What `execute()` answers: the returned rows and, for a counting select,
      the count; or the exception the client library raised. */
  datatype Reply = Reply(data: seq<Dict>, count: Option<int>) | Raised(reason: string)

  /** What `create_client(url, key)` returns, reduced to the settings it was made from. */
  datatype Client = Client(url: string, key: string)

  /** The module global `supabase_db`: the client once created, and the chains
      `execute()` has sent through it, oldest first. */
  class SupabaseDb {
    var client: Option<Client>
    var sent: seq<seq<Op>>

    constructor ()
      ensures client == None && sent == []
    {
      client := None;
      sent := [];
    }

    /** `.execute()` on a finished chain. */
    method Execute(chain: seq<Op>, reply: Reply) returns (answer: Reply)
      modifies this
      ensures client == old(client)
      ensures sent == old(sent) + [chain]
      ensures answer == reply
    {
      sent := sent + [chain];
      answer := reply;
    }
  }

  const MissingSettings := "SUPABASE_URL and SUPABASE_SERVICE_ROLE_KEY must be set"
  const CreateFailed := "Failed to create document"

  /** `limit or 1000`: the window used when an offset comes without a limit. */
  const DefaultPageSize := 1000

  predicate CanConnect(env: Env) {
    Present(env.supabaseUrl) && Present(env.serviceRoleKey)
  }

  function NewClient(env: Env): Client
    requires CanConnect(env)
  {
    Client(env.supabaseUrl.value, env.serviceRoleKey.value)
  }

  /** The client held once `get_supabase_client()` has run: the one already
      held, else a new one when both settings are there, else none. */
  function HeldAfter(held: Option<Client>, env: Env): Option<Client> {
    if held.Some? then held
    else if CanConnect(env) then Some(NewClient(env))
    else None
  }

  /** `connect_to_supabase()`: replaces the global client, or raises when a setting is missing. */
  method ConnectToSupabase(db: SupabaseDb, env: Env) returns (r: Result<()>)
    modifies db
    ensures db.sent == old(db.sent)
    ensures r.Ok? <==> CanConnect(env)
    ensures r.Ok? ==> db.client == Some(NewClient(env))
    ensures r.Err? ==> r.error == ValueError(MissingSettings) && db.client == old(db.client)
  {
    if !Present(env.supabaseUrl) || !Present(env.serviceRoleKey) {
      return Err(ValueError(MissingSettings));
    }
    db.client := Some(Client(env.supabaseUrl.value, env.serviceRoleKey.value));
    r := Ok(());
  }

  /** `get_supabase_client()`: connects only while no client is held. */
  method GetSupabaseClient(db: SupabaseDb, env: Env) returns (r: Result<Client>)
    modifies db
    ensures db.sent == old(db.sent)
    ensures db.client == HeldAfter(old(db.client), env)
    ensures old(db.client).Some? ==> r == Ok(old(db.client).value)
    ensures r == if db.client.Some? then Ok(db.client.value) else Err(ValueError(MissingSettings))
  {
    if db.client.None? {
      var connected := ConnectToSupabase(db, env);
      if connected.Err? {
        return Err(connected.error);
      }
    }
    r := Ok(db.client.value);
  }

  // ----- Filters -----

  /** The equality-only translation of a filter: one `.eq` per key, in key order. */
  function EqFilters(query: Dict): seq<Op> {
    seq(|query|, i requires 0 <= i < |query| => Eq(query[i].0, query[i].1))
  }

  /** A value written `{"$in": [...]}` (any mapping that has the key "$in"). */
  predicate IsInOperator(v: Value) {
    v.VDict? && Has(v.entries, "$in")
  }

  function FilterOp(key: string, value: Value): Op {
    if IsInOperator(value) then In(key, Get(value.entries, "$in").value) else Eq(key, value)
  }

  /** The translation `get_documents` uses: `.in_` for a membership test, `.eq` for
      every other value, operator mappings such as `{"$gte": x}` included. */
  function Filters(query: Dict): (ops: seq<Op>)
    ensures |ops| == |query|
    ensures forall i :: 0 <= i < |query| ==> (ops[i].Eq? || ops[i].In?) && ops[i].column == query[i].0
    ensures forall i :: 0 <= i < |query| ==>
              (ops[i].In? <==> IsInOperator(query[i].1)) && (ops[i].Eq? <==> !IsInOperator(query[i].1))
    ensures forall i :: 0 <= i < |query| && IsInOperator(query[i].1) ==>
              ops[i].values == Get(query[i].1.entries, "$in").value
    ensures forall i :: 0 <= i < |query| && !IsInOperator(query[i].1) ==> ops[i].value == query[i].1
  {
    seq(|query|, i requires 0 <= i < |query| => FilterOp(query[i].0, query[i].1))
  }

  /** The `for key, value in query.items(): query_builder = query_builder.eq(key, value)` loop. */
  method AddEqFilters(builder: seq<Op>, query: Dict) returns (chain: seq<Op>)
    ensures chain == builder + EqFilters(query)
  {
    chain := builder;
    for i := 0 to |query|
      invariant chain == builder + EqFilters(query[..i])
    {
      var (key, value) := query[i];
      chain := chain + [Eq(key, value)];
      assert EqFilters(query[..i + 1]) == EqFilters(query[..i]) + [Eq(key, value)];
    }
    assert query[..|query|] == query;
  }

  /** The filter loop of `get_documents`, with its `$in` case. */
  method AddFilters(builder: seq<Op>, query: Dict) returns (chain: seq<Op>)
    ensures chain == builder + Filters(query)
  {
    chain := builder;
    for i := 0 to |query|
      invariant chain == builder + Filters(query[..i])
    {
      var (key, value) := query[i];
      if value.VDict? && Has(value.entries, "$in") {
        chain := chain + [In(key, Get(value.entries, "$in").value)];
      } else {
        chain := chain + [Eq(key, value)];
      }
      assert Filters(query[..i + 1]) == Filters(query[..i]) + [FilterOp(key, value)];
    }
    assert query[..|query|] == query;
  }

  /** The two translations agree exactly on filters without a membership test;
      so `get_document`, `update_document`, `delete_document` and
      `count_documents` send a `{"$in": [...]}` value as a plain equality. */
  lemma {:induction false} EqualityTranslationAgrees(query: Dict)
    ensures Filters(query) == EqFilters(query) <==>
            forall i :: 0 <= i < |query| ==> !IsInOperator(query[i].1)
  {
    if Filters(query) == EqFilters(query) {
      forall i | 0 <= i < |query|
        ensures !IsInOperator(query[i].1)
      {
        assert Filters(query)[i] == EqFilters(query)[i];
      }
    }
  }

  /** `{"a": 1, "b": {"$in": [2, 3]}}` is sent as `a = 1 AND b IN (2, 3)`. */
  lemma ConjunctionExample()
    ensures Filters([("a", VInt(1)), ("b", VDict([("$in", VList([VInt(2), VInt(3)]))]))]) ==
            [Eq("a", VInt(1)), In("b", VList([VInt(2), VInt(3)]))]
  {
  }

  /** Any other operator mapping, `{"$gte": x}` for one, is not translated: it
      becomes an equality against the mapping itself. */
  lemma OtherOperatorsBecomeEquality(key: string, bound: Value)
    ensures Filters([(key, VDict([("$gte", bound)]))]) == [Eq(key, VDict([("$gte", bound)]))]
  {
    var operator: Dict := [("$gte", bound)];
    assert operator[1..] == [];
    assert |operator[0].0| != |"$in"|;
    assert Get(operator, "$in") == None;
  }

  // ----- Sorting and paging -----

  function SortOps(sortBy: Value, desc: bool): seq<Op> {
    if Truthy(sortBy) then [Order(sortBy, desc)] else []
  }

  /** `limit or 1000` */
  function PageSize(limit: Option<int>): int {
    if limit.Some? && limit.value != 0 then limit.value else DefaultPageSize
  }

  /** The paging calls of `get_documents`: a range when the offset is non-zero,
      else a limit when one is given, else nothing. */
  function PageOps(limit: Option<int>, offset: int): (ops: seq<Op>)
    ensures |ops| <= 1
    ensures offset != 0 ==> ops == [Range(offset, offset + PageSize(limit) - 1)]
    ensures offset == 0 ==> (ops != [] <==> limit.Some? && limit.value != 0)
    ensures offset == 0 && limit.Some? && limit.value != 0 ==> ops == [Limit(limit.value)]
  {
    if offset != 0 then [Range(offset, offset + PageSize(limit) - 1)]
    else if limit.Some? && limit.value != 0 then [Limit(limit.value)]
    else []
  }

  function Drop(rows: seq<Dict>, n: int): seq<Dict> {
    if n <= 0 then rows else if n >= |rows| then [] else rows[n..]
  }

  function Take(rows: seq<Dict>, n: int): seq<Dict> {
    if n <= 0 then [] else if n >= |rows| then rows else rows[..n]
  }

  /** How the backend cuts the matching rows for a paging call: `range(a, b)`
      keeps positions a to b, `limit(n)` the first n; other calls cut nothing. */
  function Cut(op: Op, rows: seq<Dict>): seq<Dict> {
    match op
    case Range(a, b) => Take(Drop(rows, a), b - a + 1)
    case Limit(n) => Take(rows, n)
    case _ => rows
  }

  function Paged(ops: seq<Op>, rows: seq<Dict>): seq<Dict>
    decreases |ops|
  {
    if ops == [] then rows else Paged(ops[1..], Cut(ops[0], rows))
  }

  /** Document-store paging, the meaning callers give to `skip` and `limit`:
      skip that many rows, then keep `limit` of them (none or 0: keep all). */
  function SkipLimit(rows: seq<Dict>, skip: int, limit: Option<int>): seq<Dict> {
    var rest := Drop(rows, skip);
    if limit.Some? && limit.value > 0 then Take(rest, limit.value) else rest
  }

  /** The range/limit calls skip and take what the document store would, with
      the one substitution of a 1000-row window for a missing limit when the
      offset is non-zero. */
  lemma PagingAgreesWithSkipLimit(rows: seq<Dict>, limit: Option<int>, offset: int)
    requires offset >= 0
    requires limit.None? || limit.value >= 0
    ensures Paged(PageOps(limit, offset), rows) ==
            SkipLimit(rows, offset, if offset != 0 then Some(PageSize(limit)) else limit)
  {
    var ops := PageOps(limit, offset);
    if ops != [] {
      assert ops[1..] == [];
    }
  }

  /** `skip=10` without a limit reads the 1000 rows from position 10 on. */
  lemma OffsetWithoutLimitExample()
    ensures PageOps(None, 10) == [Range(10, 1009)]
    ensures PageOps(Some(0), 10) == [Range(10, 1009)]
    ensures PageOps(Some(20), 10) == [Range(10, 29)]
    ensures PageOps(Some(20), 0) == [Limit(20)]
  {
  }

  /** With an offset and no limit, every remaining row comes back exactly when
      at most 1000 remain: the fallback truncates longer results. */
  lemma DefaultWindowTruncates(rows: seq<Dict>, limit: Option<int>, offset: int)
    requires offset > 0
    requires limit.None? || limit.value == 0
    ensures Paged(PageOps(limit, offset), rows) == Drop(rows, offset) <==> |rows| - offset <= DefaultPageSize
  {
    var ops := PageOps(limit, offset);
    assert ops == [Range(offset, offset + DefaultPageSize - 1)];
    assert ops[1..] == [];
    var rest := Drop(rows, offset);
    assert Paged(ops, rows) == Take(rest, DefaultPageSize);
    if |rows| - offset > DefaultPageSize {
      assert |Take(rest, DefaultPageSize)| == DefaultPageSize < |rest|;
    }
  }

  // ----- The builder chains each operation sends -----

  function CreateChain(table: string, document: Dict): seq<Op> {
    [Table(table), Insert(document)]
  }

  function GetOneChain(table: string, query: Dict): seq<Op> {
    [Table(table), Select(false)] + EqFilters(query) + [Limit(1)]
  }

  function GetManyChain(table: string, query: Dict, sortBy: Value, desc: bool,
                        limit: Option<int>, offset: int): seq<Op> {
    [Table(table), Select(false)] + Filters(query) + SortOps(sortBy, desc) + PageOps(limit, offset)
  }

  function UpdateChain(table: string, query: Dict, values: Dict): seq<Op> {
    [Table(table)] + EqFilters(query) + [Update(values)]
  }

  function DeleteChain(table: string, query: Dict): seq<Op> {
    [Table(table)] + EqFilters(query) + [Delete]
  }

  function CountChain(table: string, query: Dict): seq<Op> {
    [Table(table), Select(true)] + EqFilters(query)
  }

  /** In `get_documents` the filters come first, then the ordering (only for a
      truthy sort field), then at most one paging call. */
  lemma GetManyChainOrder(table: string, query: Dict, sortBy: Value, desc: bool,
                          limit: Option<int>, offset: int)
    ensures var chain := GetManyChain(table, query, sortBy, desc, limit, offset);
            var n := 2 + |query|;
            && chain[..n] == [Table(table), Select(false)] + Filters(query)
            && (Truthy(sortBy) ==> chain[n] == Order(sortBy, desc))
            && (forall i :: n <= i < |chain| ==> chain[i].Order? ==> Truthy(sortBy) && i == n)
            && chain[n + |SortOps(sortBy, desc)|..] == PageOps(limit, offset)
  {
    var chain := GetManyChain(table, query, sortBy, desc, limit, offset);
    var head := [Table(table), Select(false)] + Filters(query);
    assert chain == head + SortOps(sortBy, desc) + PageOps(limit, offset);
    assert |head| == 2 + |query|;
  }

  /** The query of a call that may pass `None`: no filter then. */
  function EntriesOf(query: PyDict?): Dict
    reads query
  {
    if query == null then [] else query.entries
  }

  // ----- Timestamps -----

  /** What `create_document` writes into the caller's document. */
  function Stamped(document: Dict, now: string): Dict {
    Set(Set(document, "created_at", VStr(now)), "updated_at", VStr(now))
  }

  /** What `update_document` writes into the caller's update map. */
  function Touched(update: Dict, now: string): Dict {
    Set(update, "updated_at", VStr(now))
  }

  lemma StampedFields(document: Dict, now: string)
    ensures Get(Stamped(document, now), "created_at") == Some(VStr(now))
    ensures Get(Stamped(document, now), "updated_at") == Some(VStr(now))
    ensures forall k :: k != "created_at" && k != "updated_at" ==>
              Get(Stamped(document, now), k) == Get(document, k)
    ensures DistinctKeys(document) ==> DistinctKeys(Stamped(document, now))
  {
    var once := Set(document, "created_at", VStr(now));
    GetSet(once, "updated_at", VStr(now), "created_at");
    GetSet(document, "created_at", VStr(now), "created_at");
    GetSet(once, "updated_at", VStr(now), "updated_at");
    forall k | k != "created_at" && k != "updated_at"
      ensures Get(Stamped(document, now), k) == Get(document, k)
    {
      GetSet(once, "updated_at", VStr(now), k);
      GetSet(document, "created_at", VStr(now), k);
    }
    if DistinctKeys(document) {
      SetKeepsDistinct(document, "created_at", VStr(now));
      SetKeepsDistinct(once, "updated_at", VStr(now));
    }
  }

  /** The caller's `updated_at`, if any, is overwritten by the current time;
      every other field is kept, in place. */
  lemma TouchedFields(update: Dict, now: string)
    ensures Get(Touched(update, now), "updated_at") == Some(VStr(now))
    ensures forall k :: k != "updated_at" ==> Get(Touched(update, now), k) == Get(update, k)
    ensures Has(update, "updated_at") ==> |Touched(update, now)| == |update|
    ensures !Has(update, "updated_at") ==> Touched(update, now) == update + [("updated_at", VStr(now))]
  {
    GetSet(update, "updated_at", VStr(now), "updated_at");
    forall k | k != "updated_at"
      ensures Get(Touched(update, now), k) == Get(update, k)
    {
      GetSet(update, "updated_at", VStr(now), k);
    }
    if Has(update, "updated_at") {
      SetPresentLength(update, "updated_at", VStr(now));
    } else {
      SetMissing(update, "updated_at", VStr(now));
    }
  }

  // ----- Reading the reply -----

  /** `result.data[0]["id"]` when rows came back; otherwise the creation failed. */
  function CreatedId(reply: Reply): (r: Result<Value>)
    ensures r.Ok? <==> reply.Reply? && reply.data != [] && Has(reply.data[0], "id")
    ensures r.Ok? ==> Get(reply.data[0], "id") == Some(r.value)
    ensures reply.Reply? && reply.data == [] ==> r == Err(Failure(CreateFailed))
    ensures reply.Raised? ==> r == Err(BackendError(reply.reason))
    ensures reply.Reply? && reply.data != [] && !Has(reply.data[0], "id") ==> r == Err(KeyError("id"))
  {
    match reply
    case Raised(why) => Err(BackendError(why))
    case Reply(data, _) =>
      if data == [] then Err(Failure(CreateFailed))
      else if Has(data[0], "id") then Ok(Get(data[0], "id").value)
      else Err(KeyError("id"))
  }

  /** The first returned row, or none when no row came back. */
  function FirstRow(reply: Reply): (r: Result<Option<Dict>>)
    ensures r.Ok? <==> reply.Reply?
    ensures r.Ok? ==> (r.value.Some? <==> reply.data != [])
    ensures r.Ok? && r.value.Some? ==> r.value.value == reply.data[0]
  {
    match reply
    case Raised(why) => Err(BackendError(why))
    case Reply(data, _) => Ok(if data != [] then Some(data[0]) else None)
  }

  /** `result.data if result.data else []`: the rows as they came. */
  function AllRows(reply: Reply): (r: Result<seq<Dict>>)
    ensures r.Ok? <==> reply.Reply?
    ensures r.Ok? ==> r.value == reply.data
  {
    match reply
    case Raised(why) => Err(BackendError(why))
    case Reply(data, _) => Ok(data)
  }

  /** `len(result.data) > 0 if result.data else False`: at least one row was touched. */
  function AnyRows(reply: Reply): (r: Result<bool>)
    ensures r.Ok? <==> reply.Reply?
    ensures r == Ok(true) <==> reply.Reply? && |reply.data| > 0
  {
    match reply
    case Raised(why) => Err(BackendError(why))
    case Reply(data, _) => Ok(if data != [] then |data| > 0 else false)
  }

  /** `result.count if result.count else 0` */
  function CountOf(reply: Reply): (r: Result<int>)
    ensures r.Ok? <==> reply.Reply?
    ensures r.Ok? && r.value != 0 ==> reply.count == Some(r.value)
    ensures r.Ok? && reply.count.Some? ==> r.value == reply.count.value
    ensures r.Ok? && reply.count.None? ==> r.value == 0
  {
    match reply
    case Raised(why) => Err(BackendError(why))
    case Reply(_, count) => Ok(if count.Some? && count.value != 0 then count.value else 0)
  }

  // ----- SupabaseOperations -----

  /** `SupabaseOperations.create_document`: stamps the caller's document, inserts it,
      and returns the new row's id. */
  method CreateDocument(db: SupabaseDb, env: Env, table: string, document: PyDict,
                        now: string, reply: Reply) returns (r: Result<Value>)
    modifies db, document
    ensures db.client == HeldAfter(old(db.client), env)
    ensures db.client.None? ==>
              r == Err(ValueError(MissingSettings)) && db.sent == old(db.sent) &&
              document.entries == old(document.entries)
    ensures db.client.Some? ==>
              && document.entries == Stamped(old(document.entries), now)
              && db.sent == old(db.sent) + [CreateChain(table, document.entries)]
              && r == CreatedId(reply)
  {
    var client := GetSupabaseClient(db, env);
    if client.Err? {
      return Err(client.error);
    }
    document.SetItem("created_at", VStr(now));
    document.SetItem("updated_at", VStr(now));
    var answer := db.Execute([Table(table), Insert(document.entries)], reply);
    r := CreatedId(answer);
  }

  /** `SupabaseOperations.get_document`: equality on every key, at most one row. */
  method GetDocument(db: SupabaseDb, env: Env, table: string, query: PyDict, reply: Reply)
    returns (r: Result<Option<Dict>>)
    modifies db
    ensures db.client == HeldAfter(old(db.client), env)
    ensures db.client.None? ==> r == Err(ValueError(MissingSettings)) && db.sent == old(db.sent)
    ensures db.client.Some? ==>
              db.sent == old(db.sent) + [GetOneChain(table, query.entries)] && r == FirstRow(reply)
  {
    var client := GetSupabaseClient(db, env);
    if client.Err? {
      return Err(client.error);
    }
    var chain := AddEqFilters([Table(table), Select(false)], query.entries);
    var answer := db.Execute(chain + [Limit(1)], reply);
    r := FirstRow(answer);
  }

  /** `SupabaseOperations.get_documents`: filters, then ordering, then paging. */
  method GetDocuments(db: SupabaseDb, env: Env, table: string, query: PyDict?,
                      sortBy: Value, sortDesc: bool, limit: Option<int>, offset: int, reply: Reply)
    returns (r: Result<seq<Dict>>)
    modifies db
    ensures db.client == HeldAfter(old(db.client), env)
    ensures db.client.None? ==> r == Err(ValueError(MissingSettings)) && db.sent == old(db.sent)
    ensures db.client.Some? ==>
              && db.sent == old(db.sent) + [GetManyChain(table, EntriesOf(query), sortBy, sortDesc, limit, offset)]
              && r == AllRows(reply)
  {
    var client := GetSupabaseClient(db, env);
    if client.Err? {
      return Err(client.error);
    }
    var chain := [Table(table), Select(false)];
    if query != null && query.entries != [] {
      chain := AddFilters(chain, query.entries);
    }
    assert chain == [Table(table), Select(false)] + Filters(EntriesOf(query));
    if Truthy(sortBy) {
      chain := chain + [Order(sortBy, sortDesc)];
    }
    if offset != 0 {
      var window := if limit.Some? && limit.value != 0 then limit.value else DefaultPageSize;
      chain := chain + [Range(offset, offset + window - 1)];
    } else if limit.Some? && limit.value != 0 {
      chain := chain + [Limit(limit.value)];
    }
    assert chain == GetManyChain(table, EntriesOf(query), sortBy, sortDesc, limit, offset);
    var answer := db.Execute(chain, reply);
    r := AllRows(answer);
  }

  /** `SupabaseOperations.update_document`: stamps the caller's update map, then
      updates the rows equal on every filter key. */
  method UpdateDocument(db: SupabaseDb, env: Env, table: string, query: PyDict, update: PyDict,
                        now: string, reply: Reply) returns (r: Result<bool>)
    requires query != update
    modifies db, update
    ensures db.client == HeldAfter(old(db.client), env)
    ensures db.client.None? ==>
              r == Err(ValueError(MissingSettings)) && db.sent == old(db.sent) &&
              update.entries == old(update.entries)
    ensures db.client.Some? ==>
              && update.entries == Touched(old(update.entries), now)
              && db.sent == old(db.sent) + [UpdateChain(table, query.entries, update.entries)]
              && r == AnyRows(reply)
  {
    var client := GetSupabaseClient(db, env);
    if client.Err? {
      return Err(client.error);
    }
    update.SetItem("updated_at", VStr(now));
    var chain := AddEqFilters([Table(table)], query.entries);
    var answer := db.Execute(chain + [Update(update.entries)], reply);
    r := AnyRows(answer);
  }

  /** `SupabaseOperations.delete_document` */
  method DeleteDocument(db: SupabaseDb, env: Env, table: string, query: PyDict, reply: Reply)
    returns (r: Result<bool>)
    modifies db
    ensures db.client == HeldAfter(old(db.client), env)
    ensures db.client.None? ==> r == Err(ValueError(MissingSettings)) && db.sent == old(db.sent)
    ensures db.client.Some? ==>
              db.sent == old(db.sent) + [DeleteChain(table, query.entries)] && r == AnyRows(reply)
  {
    var client := GetSupabaseClient(db, env);
    if client.Err? {
      return Err(client.error);
    }
    var chain := AddEqFilters([Table(table)], query.entries);
    var answer := db.Execute(chain + [Delete], reply);
    r := AnyRows(answer);
  }

  /** `SupabaseOperations.count_documents`: an exact-count select. */
  method CountDocuments(db: SupabaseDb, env: Env, table: string, query: PyDict?, reply: Reply)
    returns (r: Result<int>)
    modifies db
    ensures db.client == HeldAfter(old(db.client), env)
    ensures db.client.None? ==> r == Err(ValueError(MissingSettings)) && db.sent == old(db.sent)
    ensures db.client.Some? ==>
              db.sent == old(db.sent) + [CountChain(table, EntriesOf(query))] && r == CountOf(reply)
  {
    var client := GetSupabaseClient(db, env);
    if client.Err? {
      return Err(client.error);
    }
    var chain := [Table(table), Select(true)];
    if query != null && query.entries != [] {
      chain := AddEqFilters(chain, query.entries);
    }
    assert EqFilters([]) == [];
    assert chain == CountChain(table, EntriesOf(query));
    var answer := db.Execute(chain, reply);
    r := CountOf(answer);
  }
}
