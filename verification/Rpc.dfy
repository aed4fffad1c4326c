/** Protocol types shared by the broker, the clients and the workers (src/rpc.rs). */
module Rpc {

  datatype Option<+T> = None | Some(value: T)

  datatype ClientId = ClientId(uuid: nat)
  datatype CallId = CallId(uuid: nat)
  type Name = string

  /** A JSON document. Floating point numbers do not occur in the modelled code. */
  datatype Value =
    | Null
    | Bool(flag: bool)
    | Number(n: int)
    | String(text: string)
    | Array(items: seq<Value>)
    | Object(fields: map<string, Value>)

  /** A topic is published and subscribed under an object. */
  datatype Topic = Topic(obj: Name, title: string)

  datatype Invocation = Invocation(id: CallId, obj: Name, op: string, args: Value)

  datatype Request =
    | RegisterObject(obj: Name)
    | RegisterService(obj: Name, service: Name)
    | Call(call: Invocation)
    | Subscribe(topic: Topic)
    | Publish(topic: Topic, args: Value)
    | HasObject(obj: Name)

  datatype Response =
    | Registered(obj: Name)
    | Result(id: CallId, obj: Name, value: Value)
    | Error(call: Option<CallId>, obj: Name, message: string)
    | Event(topic: Topic, args: Value)
    | Subscribed(topic: Topic)
    | HasObjectResult(obj: Name, exists_: bool)

  /** What travels in one frame: request and response variant names are disjoint, so decoding is unambiguous. */
  datatype Packet = Req(req: Request) | Resp(resp: Response)

  /** The call a response answers: only these responses are routed back to a caller. */
  function ReplyTo(r: Response): Option<CallId> {
    match r
    case Result(id, _, _) => Some(id)
    case Error(Some(id), _, _) => Some(id)
    case _ => None
  }

  /** A result or an error that carries the call's id. */
  predicate IsReplyTo(r: Response, id: CallId) {
    (r.Result? && r.id == id) || (r.Error? && r.call == Some(id))
  }
}
