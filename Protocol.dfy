/** The messages carried by the channel between the client process and the
    host bridge, as structured values instead of JSON text. */
module Protocol {
  import opened Wrappers
  import opened Json

  /** The payload of an action, as the client's get, set and call build it.
      A key list the caller leaves out is sent as null (None). */
  datatype Params =
    | GetParams(idOrPath: Value,
                propertyKeysSingle: Option<seq<string>>,
                propertyKeysMultiple: Option<seq<string>>,
                childKeysSingle: Option<seq<string>>,
                childKeysMultiple: Option<seq<string>>)
    | SetParams(idOrPath: Value, property: string, value: Value)
    | CallParams(idOrPath: Value, args: seq<Value>)

  /** The channel tag an action is sent under, which is also its `action` field. */
  function Kind(p: Params): string
  {
    match p
    case GetParams(_, _, _, _, _) => "get"
    case SetParams(_, _, _) => "set"
    case CallParams(_, _) => "call"
  }

  /** A key list as the host iterates it: a missing list is empty. */
  function Keys(l: Option<seq<string>>): seq<string>
  {
    if l.Some? then l.value else []
  }

  /** Key k is in one of the four key lists of a get. */
  predicate NamedIn(ps: Option<seq<string>>, pm: Option<seq<string>>,
                    cs: Option<seq<string>>, cm: Option<seq<string>>, k: string)
  {
    k in Keys(ps) || k in Keys(pm) || k in Keys(cs) || k in Keys(cm)
  }

  /** A get names key k in one of its four lists. */
  predicate Names(p: Params, k: string)
    requires p.GetParams?
  {
    NamedIn(p.propertyKeysSingle, p.propertyKeysMultiple, p.childKeysSingle, p.childKeysMultiple, k)
  }

  /** `{ actionId, ...params }` */
  datatype Message = Message(actionId: int, params: Params)

  /** One entry of the client's outbound channel: the tag and the message. */
  datatype Emitted = Emitted(tag: string, message: Message)

  /** The host's view of an action message: each field read by name, an
      absent field read as Null (or None for a key list). */
  datatype Request = Request(
    actionId: Value,
    idOrPath: Value,
    propertyKeysSingle: Option<seq<string>>,
    propertyKeysMultiple: Option<seq<string>>,
    childKeysSingle: Option<seq<string>>,
    childKeysMultiple: Option<seq<string>>,
    property: Value,
    value: Value,
    args: Value)

  /** What the host parses out of a message the client sent. */
  function Wire(m: Message): (r: Request)
    ensures r.actionId == Num(m.actionId) && r.idOrPath == m.params.idOrPath
    ensures m.params.GetParams? ==>
      r.propertyKeysSingle == m.params.propertyKeysSingle &&
      r.propertyKeysMultiple == m.params.propertyKeysMultiple &&
      r.childKeysSingle == m.params.childKeysSingle &&
      r.childKeysMultiple == m.params.childKeysMultiple
    ensures m.params.SetParams? ==>
      r.property == Str(m.params.property) && r.value == m.params.value
    ensures m.params.CallParams? ==> r.args == Arr(m.params.args)
  {
    match m.params
    case GetParams(target, ps, pm, cs, cm) =>
      Request(Num(m.actionId), target, ps, pm, cs, cm, Null, Null, Null)
    case SetParams(target, property, value) =>
      Request(Num(m.actionId), target, None, None, None, None, Str(property), value, Null)
    case CallParams(target, args) =>
      Request(Num(m.actionId), target, None, None, None, None, Null, Null, Arr(args))
  }

  /** An inbound message to a host handler: either parsed, or JSON.parse threw. */
  datatype Inbound = Parsed(request: Request) | Unparsable(error: string)

  /** `{status, actionId, data?, message?}` as the host emits it on the
      `result` tag; an absent field is None. */
  datatype ResultMsg = ResultMsg(status: string, actionId: Value, data: Option<Value>, message: Option<Value>)
}
