/**
 * The `ResponseEntity` values the controllers build: a status code and a
 * body that is empty, a JSON object of fields, or a stored entity or list.
 */
module Responses {
  import opened Tables
  import opened Notes
  import opened TripPlans

  const Ok: int := 200
  const Created: int := 201
  const BadRequest: int := 400
  const Unauthorized: int := 401
  const Forbidden: int := 403
  const NotFound: int := 404
  const InternalServerError: int := 500

  /** A JSON value as the controllers put it into a response map. */
  datatype Value =
    | Flag(flag: bool)
    | Str(text: string)
    | Number(number: int)
    | PlanValue(plan: Row<TripPlan>)
    | NoteValue(note: Row<Note>)
    | Object(fields: map<string, Value>)
    | Null

  datatype Body =
    | NoBody
    | Fields(fields: map<string, Value>)
    | PlanBody(plan: Row<TripPlan>)
    | NoteBody(note: Row<Note>)
    | PlanList(plans: map<int, TripPlan>)
    | NoteList(notes: seq<Row<Note>>)

  datatype Response = Response(status: int, body: Body)

  /** The `success` and `message` pair most endpoints answer with. */
  function Outcome(success: bool, message: string): (m: map<string, Value>)
    ensures m.Keys == {"success", "message"}
    ensures m["success"] == Flag(success) && m["message"] == Str(message)
  {
    map["success" := Flag(success), "message" := Str(message)]
  }

  /** The field `key` of a JSON-object body, if the body is one and has it. */
  function Field(r: Response, key: string): (v: Value)
    ensures r.body.Fields? && key in r.body.fields ==> v == r.body.fields[key]
    ensures !(r.body.Fields? && key in r.body.fields) ==> v == Null
  {
    if r.body.Fields? && key in r.body.fields then r.body.fields[key] else Null
  }
}
