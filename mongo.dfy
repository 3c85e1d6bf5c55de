/** The document-store side as the adapter sees it. `database/mongodb.py` is
    not part of this model: its operations are opaque, so each forwarded call
    is recorded as it was made, and what it returns is whatever the caller of
    the adapter supplies as the store's answer. */
module Mongo {
  import opened Runtime

  /** A call forwarded to `MongoOperations`, with its arguments untouched. */
  datatype Call =
    | CreateDocument(collection: string, document: Dict)
    | GetDocument(collection: string, query: Dict)
    | GetDocuments(collection: string, filter: Option<Dict>, sort: Value, limit: Option<int>, skip: int)
    | UpdateDocument(collection: string, query: Dict, update: Dict)
    | DeleteDocument(collection: string, query: Dict)
    | CountDocuments(collection: string, filter: Option<Dict>)
    | Aggregate(collection: string, pipeline: seq<Dict>)

  /** The connection opened by `connect_to_mongo` and the calls made through it. */
  class MongoDb {
    var open: bool
    var calls: seq<Call>

    constructor ()
      ensures !open && calls == []
    {
      open := false;
      calls := [];
    }

    /** `connect_to_mongo()` */
    method Connect()
      modifies this
      ensures open && calls == old(calls)
    {
      open := true;
    }

    /** `close_mongo_connection()` */
    method Close()
      modifies this
      ensures !open && calls == old(calls)
    {
      open := false;
    }

    method Forward(call: Call)
      modifies this
      ensures open == old(open) && calls == old(calls) + [call]
    {
      calls := calls + [call];
    }
  }
}
