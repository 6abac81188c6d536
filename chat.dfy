/** The message value objects the clients consume and produce, and their wire mapping `to_dict()`. */
module Chat {
  import opened Outcomes
  import opened Json

  datatype Role = System | User | AI

  /** The role's string value on the wire. */
  function RoleValue(role: Role): (s: string) {
    match role
    case System => "system"
    case User => "user"
    case AI => "assistant"
  }

  function RoleFromValue(s: string): (r: Option<Role>)
    ensures r.Some? ==> RoleValue(r.value) == s
  {
    if s == "system" then Some(System)
    else if s == "user" then Some(User)
    else if s == "assistant" then Some(AI)
    else None
  }

  /** A role-tagged message. The content is whatever JSON value the reply carried: every message
      the streaming paths build holds a string, but a non-streaming reply can hold `null`. */
  datatype Message = Message(role: Role, content: Json)

  /** `msg.to_dict()`: `{"role": ..., "content": ...}`. */
  function ToDict(m: Message): (d: Json)
    ensures FromDict(d) == Some(m)
  {
    assert RoleFromValue(RoleValue(m.role)) == Some(m.role);
    JObj(map["role" := JStr(RoleValue(m.role)), "content" := m.content])
  }

  /** Reads a `{"role", "content"}` mapping back into a message. */
  function FromDict(d: Json): (r: Option<Message>) {
    if d.JObj? && d.fields.Keys == {"role", "content"} && d.fields["role"].JStr? then
      match RoleFromValue(d.fields["role"].s)
      case Some(role) => Some(Message(role, d.fields["content"]))
      case None => None
    else None
  }

  /** `[msg.to_dict() for msg in messages]`, in history order. */
  function ToDicts(ms: seq<Message>): (ds: seq<Json>)
    ensures |ds| == |ms|
    ensures FromDicts(ds) == Some(ms)
  {
    if ms == [] then []
    else
      var ds := [ToDict(ms[0])] + ToDicts(ms[1..]);
      assert ds[1..] == ToDicts(ms[1..]);
      assert [ms[0]] + ms[1..] == ms;
      ds
  }

  function FromDicts(ds: seq<Json>): (r: Option<seq<Message>>) {
    if ds == [] then Some([])
    else match (FromDict(ds[0]), FromDicts(ds[1..]))
      case (Some(m), Some(ms)) => Some([m] + ms)
      case _ => None
  }

  /** The i-th wire entry is the i-th message's mapping. */
  lemma {:induction false} ToDictsAt(ms: seq<Message>, i: nat)
    requires i < |ms|
    ensures ToDicts(ms)[i] == ToDict(ms[i])
  {
    if i > 0 {
      ToDictsAt(ms[1..], i - 1);
    }
  }
}
