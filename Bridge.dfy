/** How the two halves fit together: the host's reply to a message reaches
    exactly the action that sent it, and a child reference the host reports
    as 0 never turns into a fetch on the client. */
module Bridge {
  import opened Wrappers
  import opened Json
  import opened Protocol
  import H = Host
  import D = Dispatcher
  import R = Resolvers

  /** The host's reply to a message the client sent, by its tag. */
  function HostReply(host: H.LiveHost, m: Message): ResultMsg
  {
    match m.params
    case GetParams(_, _, _, _, _) => H.GetResult(host, Parsed(Wire(m)))
    case SetParams(_, _, _) => H.HandleSet(host, Parsed(Wire(m)))
    case CallParams(_, _) => H.HandleCall(host, Parsed(Wire(m)))
  }

  /** The reply carries the message's own id, so it finds that action's
      pending entry and no other; it resolves that entry when the host
      action succeeded and rejects it with the host's message otherwise. */
  lemma ReplyCorrelates(host: H.LiveHost, m: Message, handlers: map<int, D.Handlers>)
    ensures HostReply(host, m).actionId == Num(m.actionId)
    ensures D.Lookup(handlers, HostReply(host, m).actionId) ==
      (if m.actionId in handlers then Some(m.actionId) else None)
    ensures HostReply(host, m).status == "succeeded" ==>
      D.Settle(HostReply(host, m)) == D.Resolved(HostReply(host, m).data) && HostReply(host, m).data.Some?
    ensures HostReply(host, m).status != "succeeded" ==>
      D.Settle(HostReply(host, m)).Rejected? && D.Settle(HostReply(host, m)).reason.Some?
  {
  }

  /** A single child reference taken from a host snapshot is fetched exactly
      when element 1 of the host's read is truthy, and then by that id: a
      sentinel 0, and a read too short to have an element 1, fetch nothing. */
  lemma ChildFetchFromSnapshot(live: H.LiveObject, req: Request, k: string)
    requires H.Snapshot(live, req).Success?
    requires k in Keys(req.childKeysSingle) && k !in Keys(req.childKeysMultiple)
    ensures live.read(k).Success?
    ensures var vs := live.read(k).value;
      var target := R.ChildTarget(H.Snapshot(live, req).value, k);
      (target.Some? <==> |vs| >= 2 && Truthy(vs[1])) &&
      (target.Some? ==> target.value == vs[1])
  {
    H.SnapshotSingleChild(live, req, k);
  }

  /** ClipSlot.clip over the snapshot the host builds for a clip slot get:
      a clip get for element 1 of the "clip" read when it is truthy, and no
      action when the slot is empty (the host reports id 0). */
  lemma ClipSlotClipFromHost(live: H.LiveObject, actionId: int, slot: Value)
    requires H.Snapshot(live, Wire(Message(actionId, R.GetClipSlot(slot)))).Success?
    ensures live.read("clip").Success?
    ensures var vs := live.read("clip").value;
      var fetch := R.ClipSlotClip(H.Snapshot(live, Wire(Message(actionId, R.GetClipSlot(slot)))).value);
      (fetch.Some? <==> |vs| >= 2 && Truthy(vs[1])) &&
      (fetch.Some? ==> fetch.value == R.GetClip(vs[1]))
  {
    var req := Wire(Message(actionId, R.GetClipSlot(slot)));
    assert Keys(req.childKeysSingle) == ["clip"] && Keys(req.childKeysMultiple) == [];
    ChildFetchFromSnapshot(live, req, "clip");
  }

  /** Every node get the resolvers build leaves id, path and type alone, so
      a snapshot the host builds for it always carries the object's id,
      path and type, as the schema's non-null id and path fields need. */
  lemma {:induction false} NodeSnapshotHasBase(live: H.LiveObject, actionId: int, p: Params)
    requires p.GetParams? && R.KeepsBase(p)
    requires H.Snapshot(live, Wire(Message(actionId, p))).Success?
    ensures var o := H.Snapshot(live, Wire(Message(actionId, p))).value;
      && "id" in o && o["id"] == Num(live.id)
      && "path" in o && o["path"] == Str(live.unquotedPath)
      && "type" in o && o["type"] == Str(live.kind)
  {
    var req := Wire(Message(actionId, p));
    forall k | k in H.Base(live)
      ensures !H.Requested(req, k)
    {
      assert k == "id" || k == "path" || k == "type";
    }
    H.SnapshotKeepsBase(live, req, "id");
    H.SnapshotKeepsBase(live, req, "path");
    H.SnapshotKeepsBase(live, req, "type");
  }

  /** The re-read that ends clip_set_properties is a get of the same clip
      that leaves the base record alone and names every property the
      mutation may have set. */
  lemma ClipSetPropertiesRereads(id: int, properties: map<string, Value>)
    ensures var r := R.MutationActions(R.ClipSetProperties(id, properties));
      && r[|r| - 1].GetParams? && r[|r| - 1].idOrPath == Num(id) && R.KeepsBase(r[|r| - 1])
      && forall i :: 0 <= i < |r| - 1 ==> Names(r[|r| - 1], r[i].property)
  {
  }
}
