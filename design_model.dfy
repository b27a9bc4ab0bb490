/** The design shapes of the backend: the opaque JSON payload, the create
    and partial-update bodies, and the design as returned to clients. */
module DesignModel {
  import opened Common

  /** A JSON value. Designs carry one as their payload, which is stored and
      returned verbatim and never inspected. */
  datatype Json =
    | JNull
    | JBool(b: bool)
    | JNumber(n: real)
    | JString(s: string)
    | JArray(items: seq<Json>)
    | JObject(fields: map<string, Json>)

  /** The `data` of a design: a JSON object. */
  type Data = map<string, Json>

  /** The body of a create request. There is no owner field: the owner is
      always the caller. */
  datatype DesignCreate = DesignCreate(name: string, data: Data)

  /** The body of a partial update: each field may be left out, and neither
      the id nor the owner can be supplied. */
  datatype DesignUpdate = DesignUpdate(name: Option<string>, data: Option<Data>)

  /** A design as returned to clients. */
  datatype Design = Design(id: Id, ownerId: Id, name: string, data: Data)
}
