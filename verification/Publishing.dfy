/** What the bus puts together for an emit. */
module Publishing {
  import opened Sections
  import opened Admission
  import opened RoutingKey

  datatype Published = Published(key: string, agents: seq<string>, body: string)

  /** The routing key and the envelope's chain of one publish, with `inner` the encoded data,
      or None if it or its envelope did not encode, and `random` the bytes drawn, or null if none could be:
      what a receiver takes out of the key is the selector and a fresh version-4 id, and the
      chain is the one received and this agent. A failure gives nothing to publish. */
  method BuildPublishing(chain: seq<string>, selector: string, agent: string, inner: Option<string>,
                         random: array?<bv8>)
    returns (p: Option<Published>)
    requires random != null ==> random.Length == 16
    modifies random
    ensures p.Some? <==> inner.Some? && random != null
    ensures p.Some? ==> Selector(p.value.key) == selector && IsVersion4(MessageId(p.value.key))
    ensures p.Some? ==> p.value.agents == Outgoing(chain, agent) && Some(p.value.body) == inner
  {
    if inner.None? { return None; }
    var agents := BuildAgents(chain, agent);
    if random == null { return None; }
    var id := NewID(random);
    p := Some(Published(selector + "." + id, agents, inner.value));
    SplitUndoesJoin(selector, id, selector + "." + id);
  }
}
