/** The host side of the bridge (liveql-m4l.js): reference resolution, the
    snapshot a get action returns, and the three action handlers, each of
    which emits exactly one result message. The host's object model is
    abstract: a resolution function and, per object, a property read, a
    property write and a method invocation, any of which may throw. */
module Host {
  import opened Wrappers
  import opened Json
  import opened Protocol

  /** A LiveAPI object: its resolved id (0 when the reference names no
      object), unquoted path and type, and its get/set/call operations. A
      Failure is an exception, carried as its string form. */
  datatype LiveObject = LiveObject(
    id: nat,
    unquotedPath: string,
    kind: string,
    read: string -> Result<seq<Value>, string>,
    write: (Value, Value) -> Result<Value, string>,
    invoke: Value -> Result<Value, string>)

  /** `new LiveAPI(path)`: how the host resolves a path string. */
  datatype LiveHost = LiveHost(resolve: string -> LiveObject)

  /** The path handed to LiveAPI: a string is a path, anything else (a
      number, in practice) becomes "id " followed by its string form. */
  function RefPath(idOrPath: Value): (p: string)
    ensures idOrPath.Str? ==> p == idOrPath.s
    ensures idOrPath.Num? ==> p == "id " + IntToString(idOrPath.n)
  {
    if idOrPath.Str? then idOrPath.s else "id " + ToJsString(idOrPath)
  }

  /** Two different numeric ids are never sent to the host as the same path. */
  lemma RefPathDistinguishesIds(a: int, b: int)
    ensures RefPath(Num(a)) == RefPath(Num(b)) <==> a == b
  {
    var pa, pb := RefPath(Num(a)), RefPath(Num(b));
    if pa == pb {
      assert pa[3..] == IntToString(a);
      assert pb[3..] == IntToString(b);
      IntToStringInjective(a, b);
    }
  }

  const InvalidReference := "Invalid live id or path: "

  /** getLive: resolve the reference and reject the sentinel id 0. */
  function GetLive(host: LiveHost, idOrPath: Value): (r: Result<LiveObject, string>)
    ensures r.Success? <==> host.resolve(RefPath(idOrPath)).id != 0
    ensures r.Success? ==> r.value == host.resolve(RefPath(idOrPath))
    ensures r.Failure? ==> r.error == InvalidReference + ToJsString(idOrPath)
  {
    var live := host.resolve(RefPath(idOrPath));
    if live.id == 0 then Failure(InvalidReference + ToJsString(idOrPath)) else Success(live)
  }

  // ---------------------------------------------------------------------
  // Result messages (outletSuccessfulResult / outletFailedResult)

  function SucceededResult(actionId: Value, data: Value): (m: ResultMsg)
    ensures m.status == "succeeded" && m.actionId == actionId && m.data == Some(data) && m.message.None?
  {
    ResultMsg("succeeded", actionId, Some(data), None)
  }

  function FailedResult(actionId: Value, message: string): (m: ResultMsg)
    ensures m.status == "failed" && m.actionId == actionId && m.data.None? && m.message == Some(Str(message))
  {
    ResultMsg("failed", actionId, None, Some(Str(message)))
  }

  /** The one message a handler emits for the outcome of its try block. */
  function Reply(actionId: Value, outcome: Result<Value, string>): ResultMsg
  {
    match outcome
    case Success(data) => SucceededResult(actionId, data)
    case Failure(e) => FailedResult(actionId, e)
  }

  // ---------------------------------------------------------------------
  // Snapshot flattening

  /** The four request lists, each with its own flattening rule. */
  datatype Rule = PropertySingle | PropertyMultiple | ChildSingle | ChildMultiple

  /** A child list read with every "id" marker token removed. */
  function StripMarkers(vs: seq<Value>): (r: seq<Value>)
    ensures |r| <= |vs|
    ensures forall i :: 0 <= i < |r| ==> r[i] != Str("id")
    ensures forall v :: v != Str("id") ==> multiset(r)[v] == multiset(vs)[v]
  {
    if vs == [] then []
    else
      assert vs == [vs[0]] + vs[1..];
      if vs[0] == Str("id") then StripMarkers(vs[1..]) else [vs[0]] + StripMarkers(vs[1..])
  }

  /** StripMarkers keeps the order of what it keeps: it distributes over
      concatenation, so it is determined by what it does to one element. */
  lemma {:induction false} StripMarkersAppend(a: seq<Value>, b: seq<Value>)
    ensures StripMarkers(a + b) == StripMarkers(a) + StripMarkers(b)
  {
    if a == [] {
      assert a + b == b;
    } else {
      assert (a + b)[0] == a[0] && (a + b)[1..] == a[1..] + b;
      StripMarkersAppend(a[1..], b);
    }
  }

  /** A multi-child read keeps its ids, sentinel 0 included. */
  lemma StripMarkersExample()
    ensures StripMarkers([Str("id"), Num(0), Str("id"), Num(5), Str("id"), Num(12)]) == [Num(0), Num(5), Num(12)]
  {
  }

  /** The value a key holds in the record after one list assigns it, given
      the value it held before (None is absent or undefined) and the read. */
  function Effect(rule: Rule, prior: Option<Value>, vs: seq<Value>): Option<Value>
  {
    match rule
    case PropertySingle => if |vs| == 1 then Some(vs[0]) else prior
    case PropertyMultiple => Some(Arr(vs))
    case ChildSingle =>
      // live.get(k)[1] is undefined when the read is shorter than two
      if |vs| < 2 then None else if vs[1] == Num(0) then Some(Null) else Some(vs[1])
    case ChildMultiple => Some(Arr(StripMarkers(vs)))
  }

  /** `o[k] = ...` for one key of one list; undefined leaves the key out of
      the emitted JSON. */
  function Place(rule: Rule, o: map<string, Value>, k: string, vs: seq<Value>): (o': map<string, Value>)
    ensures Get(o', k) == Effect(rule, Get(o, k), vs)
    ensures forall k' :: k' != k ==> Get(o', k') == Get(o, k')
  {
    match Effect(rule, Get(o, k), vs)
    case Some(v) => o[k := v]
    case None => o - {k}
  }

  /** One list's forEach: read each key in turn and place it; a read that
      throws aborts the whole handler. */
  function Fill(rule: Rule, live: LiveObject, o: map<string, Value>, keys: seq<string>): (r: Result<map<string, Value>, string>)
    ensures r.Success? <==> forall i :: 0 <= i < |keys| ==> live.read(keys[i]).Success?
    ensures r.Success? ==> forall k :: k in r.value ==> k in o || k in keys
    ensures r.Failure? ==> exists i :: 0 <= i < |keys| && FirstFailure(live, keys, i) && r.error == live.read(keys[i]).error
    decreases |keys|
  {
    if keys == [] then Success(o)
    else
      match live.read(keys[0])
      case Failure(e) =>
        assert FirstFailure(live, keys, 0);
        Failure(e)
      case Success(vs) =>
        var r := Fill(rule, live, Place(rule, o, keys[0], vs), keys[1..]);
        if r.Failure? then
          var i :| 0 <= i < |keys[1..]| && FirstFailure(live, keys[1..], i) && r.error == live.read(keys[1..][i]).error;
          assert FirstFailure(live, keys, i + 1);
          r
        else r
  }

  /** keys[i] is the first key whose read throws. */
  predicate FirstFailure(live: LiveObject, keys: seq<string>, i: nat)
    requires i < |keys|
  {
    live.read(keys[i]).Failure? && forall j :: 0 <= j < i ==> live.read(keys[j]).Success?
  }

  /** Applying a rule twice with the same read is applying it once, so a key
      repeated in a list ends up as if it were listed once. */
  lemma EffectIdempotent(rule: Rule, prior: Option<Value>, vs: seq<Value>)
    ensures Effect(rule, Effect(rule, prior, vs), vs) == Effect(rule, prior, vs)
  {
  }

  /** What a Fill leaves under one key: the rule applied to the key's read
      when the list names the key, the prior value otherwise. */
  lemma {:induction false} FillAt(rule: Rule, live: LiveObject, o: map<string, Value>, keys: seq<string>, k: string)
    requires Fill(rule, live, o, keys).Success?
    ensures k in keys ==> live.read(k).Success?
    ensures Get(Fill(rule, live, o, keys).value, k) ==
      if k in keys then Effect(rule, Get(o, k), live.read(k).value) else Get(o, k)
    decreases |keys|
  {
    if keys != [] {
      var vs := live.read(keys[0]).value;
      var o' := Place(rule, o, keys[0], vs);
      assert keys == [keys[0]] + keys[1..];
      FillAt(rule, live, o', keys[1..], k);
      if k == keys[0] && k in keys[1..] {
        EffectIdempotent(rule, Get(o, k), vs);
      }
    }
  }

  /** The record before any list is applied. */
  function Base(live: LiveObject): map<string, Value>
  {
    map["id" := Num(live.id), "path" := Str(live.unquotedPath), "type" := Str(live.kind)]
  }

  /** The snapshot of a resolved object: the base record, then the four
      lists in the order the source applies them. It is built exactly when
      every listed read succeeds, holds only base and listed keys, and
      otherwise fails with the error of a listed read that threw. */
  function Snapshot(live: LiveObject, req: Request): (r: Result<map<string, Value>, string>)
    ensures r.Success? <==> forall k :: Requested(req, k) ==> live.read(k).Success?
    ensures r.Success? ==> forall k :: k in r.value ==> k in Base(live) || Requested(req, k)
    ensures r.Failure? ==> exists k :: Requested(req, k) && live.read(k).Failure? && r.error == live.read(k).error
    ensures r.Failure? ==> FailsFirstWith(live, AllKeys(req), r.error)
  {
    var ps, pm := Keys(req.propertyKeysSingle), Keys(req.propertyKeysMultiple);
    var cs, cm := Keys(req.childKeysSingle), Keys(req.childKeysMultiple);
    var r := (
      match Fill(PropertySingle, live, Base(live), ps)
      case Failure(e) =>
        FailsFirstExtend(live, ps, pm, e);
        FailsFirstExtend(live, ps + pm, cs, e);
        FailsFirstExtend(live, ps + pm + cs, cm, e);
        Failure(e)
      case Success(o1) =>
        match Fill(PropertyMultiple, live, o1, pm)
        case Failure(e) =>
          FailsFirstAfter(live, ps, pm, e);
          FailsFirstExtend(live, ps + pm, cs, e);
          FailsFirstExtend(live, ps + pm + cs, cm, e);
          Failure(e)
        case Success(o2) =>
          AllReadAppend(live, ps, pm);
          match Fill(ChildSingle, live, o2, cs)
          case Failure(e) =>
            FailsFirstAfter(live, ps + pm, cs, e);
            FailsFirstExtend(live, ps + pm + cs, cm, e);
            Failure(e)
          case Success(o3) =>
            AllReadAppend(live, ps + pm, cs);
            var r4 := Fill(ChildMultiple, live, o3, cm);
            if r4.Failure? then
              FailsFirstAfter(live, ps + pm + cs, cm, r4.error);
              r4
            else r4);
    if r.Failure? then
      FailsFirstIsRequested(live, req, r.error);
      r
    else r
  }

  /** The first failing key of the whole request is a listed key. */
  lemma FailsFirstIsRequested(live: LiveObject, req: Request, e: string)
    requires FailsFirstWith(live, AllKeys(req), e)
    ensures exists k :: Requested(req, k) && live.read(k).Failure? && e == live.read(k).error
  {
    var i :| 0 <= i < |AllKeys(req)| && FirstFailure(live, AllKeys(req), i) && e == live.read(AllKeys(req)[i]).error;
    assert Requested(req, AllKeys(req)[i]);
  }

  /** Every key named in any of the four lists. */
  predicate Requested(req: Request, k: string)
  {
    NamedIn(req.propertyKeysSingle, req.propertyKeysMultiple, req.childKeysSingle, req.childKeysMultiple, k)
  }

  /** The four lists in the order the handler walks them. */
  function AllKeys(req: Request): (ks: seq<string>)
    ensures forall k :: k in ks <==> Requested(req, k)
  {
    Keys(req.propertyKeysSingle) + Keys(req.propertyKeysMultiple) +
    Keys(req.childKeysSingle) + Keys(req.childKeysMultiple)
  }

  /** Every read of the list succeeds. */
  predicate AllRead(live: LiveObject, keys: seq<string>)
  {
    forall j :: 0 <= j < |keys| ==> live.read(keys[j]).Success?
  }

  /** e is the error of the first key of keys whose read throws. */
  predicate FailsFirstWith(live: LiveObject, keys: seq<string>, e: string)
  {
    exists i :: 0 <= i < |keys| && FirstFailure(live, keys, i) && e == live.read(keys[i]).error
  }

  lemma AllReadAppend(live: LiveObject, a: seq<string>, b: seq<string>)
    requires AllRead(live, a) && AllRead(live, b)
    ensures AllRead(live, a + b)
  {
  }

  /** Keys appended after the first failure do not move it. */
  lemma FailsFirstExtend(live: LiveObject, ks: seq<string>, post: seq<string>, e: string)
    requires FailsFirstWith(live, ks, e)
    ensures FailsFirstWith(live, ks + post, e)
  {
    var i :| 0 <= i < |ks| && FirstFailure(live, ks, i) && e == live.read(ks[i]).error;
    assert FirstFailure(live, ks + post, i);
  }

  /** Keys whose reads all succeed, put in front, shift the first failure
      without changing it. */
  lemma FailsFirstAfter(live: LiveObject, pre: seq<string>, ks: seq<string>, e: string)
    requires AllRead(live, pre) && FailsFirstWith(live, ks, e)
    ensures FailsFirstWith(live, pre + ks, e)
  {
    var i :| 0 <= i < |ks| && FirstFailure(live, ks, i) && e == live.read(ks[i]).error;
    var all := pre + ks;
    forall j | 0 <= j < |pre| + i
      ensures live.read(all[j]).Success?
    {
      if j < |pre| {
        assert all[j] == pre[j];
      } else {
        assert all[j] == ks[j - |pre|];
      }
    }
    assert FirstFailure(live, all, |pre| + i);
  }

  /** The value under one key of a snapshot, list by list. */
  function SnapshotValue(live: LiveObject, req: Request, k: string): Option<Value>
    requires Requested(req, k) ==> live.read(k).Success?
  {
    var before := Get(Base(live), k);
    var s1 := if k in Keys(req.propertyKeysSingle) then Effect(PropertySingle, before, live.read(k).value) else before;
    var s2 := if k in Keys(req.propertyKeysMultiple) then Effect(PropertyMultiple, s1, live.read(k).value) else s1;
    var s3 := if k in Keys(req.childKeysSingle) then Effect(ChildSingle, s2, live.read(k).value) else s2;
    if k in Keys(req.childKeysMultiple) then Effect(ChildMultiple, s3, live.read(k).value) else s3
  }

  /** A snapshot is built exactly when every listed read succeeds; it holds
      only the base keys and listed keys, and under each key the value the
      lists' rules give it in order. */
  lemma SnapshotAt(live: LiveObject, req: Request, k: string)
    ensures Snapshot(live, req).Success? <==> forall k' :: Requested(req, k') ==> live.read(k').Success?
    ensures Snapshot(live, req).Success? ==>
      && (k in Snapshot(live, req).value ==> k in Base(live) || Requested(req, k))
      && Get(Snapshot(live, req).value, k) == SnapshotValue(live, req, k)
  {
    var ps, pm := Keys(req.propertyKeysSingle), Keys(req.propertyKeysMultiple);
    var cs, cm := Keys(req.childKeysSingle), Keys(req.childKeysMultiple);
    var r1 := Fill(PropertySingle, live, Base(live), ps);
    if r1.Success? {
      FillAt(PropertySingle, live, Base(live), ps, k);
      var r2 := Fill(PropertyMultiple, live, r1.value, pm);
      if r2.Success? {
        FillAt(PropertyMultiple, live, r1.value, pm, k);
        var r3 := Fill(ChildSingle, live, r2.value, cs);
        if r3.Success? {
          FillAt(ChildSingle, live, r2.value, cs, k);
          var r4 := Fill(ChildMultiple, live, r3.value, cm);
          if r4.Success? {
            FillAt(ChildMultiple, live, r3.value, cm, k);
          }
        }
      }
    }
  }

  /** Only the four lists can drop or change id, path and type. */
  lemma SnapshotKeepsBase(live: LiveObject, req: Request, k: string)
    requires Snapshot(live, req).Success?
    requires k in Base(live) && !Requested(req, k)
    ensures k in Snapshot(live, req).value && Snapshot(live, req).value[k] == Base(live)[k]
  {
    SnapshotAt(live, req, k);
  }

  /** A key only in propertyKeysSingle is present exactly when its read has
      length one, and then holds that single element. */
  lemma SnapshotSingleProperty(live: LiveObject, req: Request, k: string)
    requires Snapshot(live, req).Success?
    requires k !in Base(live) && k in Keys(req.propertyKeysSingle)
    requires k !in Keys(req.propertyKeysMultiple) && k !in Keys(req.childKeysSingle) && k !in Keys(req.childKeysMultiple)
    ensures live.read(k).Success?
    ensures var vs := live.read(k).value;
      (k in Snapshot(live, req).value <==> |vs| == 1) &&
      (k in Snapshot(live, req).value ==> Snapshot(live, req).value[k] == vs[0])
  {
    SnapshotAt(live, req, k);
  }

  /** A key in propertyKeysMultiple (and no later list) holds its read verbatim. */
  lemma SnapshotMultipleProperty(live: LiveObject, req: Request, k: string)
    requires Snapshot(live, req).Success?
    requires k in Keys(req.propertyKeysMultiple)
    requires k !in Keys(req.childKeysSingle) && k !in Keys(req.childKeysMultiple)
    ensures live.read(k).Success?
    ensures k in Snapshot(live, req).value && Snapshot(live, req).value[k] == Arr(live.read(k).value)
  {
    SnapshotAt(live, req, k);
  }

  /** A key in childKeysSingle (and not in childKeysMultiple) holds element 1
      of its read with 0 mapped to null, is absent when the read is shorter,
      and never holds 0. */
  lemma SnapshotSingleChild(live: LiveObject, req: Request, k: string)
    requires Snapshot(live, req).Success?
    requires k in Keys(req.childKeysSingle) && k !in Keys(req.childKeysMultiple)
    ensures live.read(k).Success?
    ensures var vs := live.read(k).value;
      var o := Snapshot(live, req).value;
      (k in o <==> |vs| >= 2) &&
      (k in o ==> o[k] == (if vs[1] == Num(0) then Null else vs[1])) &&
      (k in o ==> o[k] != Num(0))
  {
    SnapshotAt(live, req, k);
  }

  /** A key in childKeysMultiple holds its read without the "id" markers; 0
      stays. */
  lemma SnapshotMultipleChild(live: LiveObject, req: Request, k: string)
    requires Snapshot(live, req).Success?
    requires k in Keys(req.childKeysMultiple)
    ensures live.read(k).Success?
    ensures k in Snapshot(live, req).value && Snapshot(live, req).value[k] == Arr(StripMarkers(live.read(k).value))
  {
    SnapshotAt(live, req, k);
  }

  // ---------------------------------------------------------------------
  // The three handlers

  /** What the get handler emits. */
  function GetResult(host: LiveHost, inbound: Inbound): (m: ResultMsg)
    ensures m.status == "succeeded" || m.status == "failed"
    ensures inbound.Unparsable? ==> m == FailedResult(Null, inbound.error)
    ensures inbound.Parsed? ==> m.actionId == inbound.request.actionId
    ensures m.status == "succeeded" <==>
      inbound.Parsed? && GetLive(host, inbound.request.idOrPath).Success? &&
      Snapshot(GetLive(host, inbound.request.idOrPath).value, inbound.request).Success?
    ensures m.status == "succeeded" ==>
      m.data == Some(Obj(Snapshot(GetLive(host, inbound.request.idOrPath).value, inbound.request).value))
    ensures m.status == "failed" ==> m.data.None? && m.message.Some? && m.message.value.Str?
    ensures inbound.Parsed? && GetLive(host, inbound.request.idOrPath).Failure? ==>
      m.message == Some(Str(GetLive(host, inbound.request.idOrPath).error))
    ensures (inbound.Parsed? && GetLive(host, inbound.request.idOrPath).Success? &&
             Snapshot(GetLive(host, inbound.request.idOrPath).value, inbound.request).Failure?) ==>
      m.message == Some(Str(Snapshot(GetLive(host, inbound.request.idOrPath).value, inbound.request).error))
  {
    match inbound
    case Unparsable(e) => FailedResult(Null, e)
    case Parsed(req) =>
      var outcome :=
        match GetLive(host, req.idOrPath)
        case Failure(e) => Failure(e)
        case Success(live) =>
          match Snapshot(live, req)
          case Failure(e) => Failure(e)
          case Success(o) => Success(Obj(o));
      Reply(req.actionId, outcome)
  }

  /** One list's forEach loop. */
  method FillKeys(rule: Rule, live: LiveObject, start: map<string, Value>, keys: seq<string>)
    returns (r: Result<map<string, Value>, string>)
    ensures r == Fill(rule, live, start, keys)
  {
    var o := start;
    var i := 0;
    while i < |keys|
      invariant 0 <= i <= |keys|
      invariant Fill(rule, live, o, keys[i..]) == Fill(rule, live, start, keys)
    {
      assert keys[i..][1..] == keys[i + 1..];
      var k := keys[i];
      match live.read(k) {
        case Failure(e) =>
          return Failure(e);
        case Success(vs) =>
          o := Place(rule, o, k, vs);
      }
      i := i + 1;
    }
    return Success(o);
  }

  /** The get handler: parse, resolve, build the record list by list, and
      emit one result; any exception becomes one failed result. */
  method HandleGet(host: LiveHost, inbound: Inbound) returns (emitted: ResultMsg)
    ensures emitted == GetResult(host, inbound)
  {
    var actionId := Null;
    match inbound {
      case Unparsable(e) =>
        return FailedResult(actionId, e);
      case Parsed(req) =>
        actionId := req.actionId;
        var live := GetLive(host, req.idOrPath);
        if live.Failure? {
          return FailedResult(actionId, live.error);
        }
        var r := FillKeys(PropertySingle, live.value, Base(live.value), Keys(req.propertyKeysSingle));
        if r.Failure? {
          return FailedResult(actionId, r.error);
        }
        r := FillKeys(PropertyMultiple, live.value, r.value, Keys(req.propertyKeysMultiple));
        if r.Failure? {
          return FailedResult(actionId, r.error);
        }
        r := FillKeys(ChildSingle, live.value, r.value, Keys(req.childKeysSingle));
        if r.Failure? {
          return FailedResult(actionId, r.error);
        }
        r := FillKeys(ChildMultiple, live.value, r.value, Keys(req.childKeysMultiple));
        if r.Failure? {
          return FailedResult(actionId, r.error);
        }
        return SucceededResult(actionId, Obj(r.value));
    }
  }

  /** The set handler: the value live.set returns goes back unchanged. */
  function HandleSet(host: LiveHost, inbound: Inbound): (m: ResultMsg)
    ensures m.status == "succeeded" || m.status == "failed"
    ensures inbound.Unparsable? ==> m == FailedResult(Null, inbound.error)
    ensures inbound.Parsed? ==> m.actionId == inbound.request.actionId
    ensures m.status == "succeeded" <==>
      inbound.Parsed? && GetLive(host, inbound.request.idOrPath).Success? &&
      GetLive(host, inbound.request.idOrPath).value.write(inbound.request.property, inbound.request.value).Success?
    ensures m.status == "succeeded" ==>
      m.data == Some(GetLive(host, inbound.request.idOrPath).value.write(inbound.request.property, inbound.request.value).value)
    ensures m.status == "failed" ==> m.data.None? && m.message.Some?
    ensures inbound.Parsed? && GetLive(host, inbound.request.idOrPath).Failure? ==>
      m.message == Some(Str(GetLive(host, inbound.request.idOrPath).error))
    ensures (inbound.Parsed? && GetLive(host, inbound.request.idOrPath).Success? &&
             GetLive(host, inbound.request.idOrPath).value.write(inbound.request.property, inbound.request.value).Failure?) ==>
      m.message == Some(Str(GetLive(host, inbound.request.idOrPath).value.write(inbound.request.property, inbound.request.value).error))
  {
    match inbound
    case Unparsable(e) => FailedResult(Null, e)
    case Parsed(req) =>
      match GetLive(host, req.idOrPath)
      case Failure(e) => FailedResult(req.actionId, e)
      case Success(live) => Reply(req.actionId, live.write(req.property, req.value))
  }

  /** The call handler: the value live.call returns goes back unchanged. */
  function HandleCall(host: LiveHost, inbound: Inbound): (m: ResultMsg)
    ensures m.status == "succeeded" || m.status == "failed"
    ensures inbound.Unparsable? ==> m == FailedResult(Null, inbound.error)
    ensures inbound.Parsed? ==> m.actionId == inbound.request.actionId
    ensures m.status == "succeeded" <==>
      inbound.Parsed? && GetLive(host, inbound.request.idOrPath).Success? &&
      GetLive(host, inbound.request.idOrPath).value.invoke(inbound.request.args).Success?
    ensures m.status == "succeeded" ==>
      m.data == Some(GetLive(host, inbound.request.idOrPath).value.invoke(inbound.request.args).value)
    ensures m.status == "failed" ==> m.data.None? && m.message.Some?
    ensures inbound.Parsed? && GetLive(host, inbound.request.idOrPath).Failure? ==>
      m.message == Some(Str(GetLive(host, inbound.request.idOrPath).error))
    ensures (inbound.Parsed? && GetLive(host, inbound.request.idOrPath).Success? &&
             GetLive(host, inbound.request.idOrPath).value.invoke(inbound.request.args).Failure?) ==>
      m.message == Some(Str(GetLive(host, inbound.request.idOrPath).value.invoke(inbound.request.args).error))
  {
    match inbound
    case Unparsable(e) => FailedResult(Null, e)
    case Parsed(req) =>
      match GetLive(host, req.idOrPath)
      case Failure(e) => FailedResult(req.actionId, e)
      case Success(live) => Reply(req.actionId, live.invoke(req.args))
  }
}
