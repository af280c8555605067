/** Chat messages and the mutable list that carries them. */
module Messages {

  /** One chat turn: `{"role": ..., "content": ...}`. */
  datatype Message = Message(role: string, content: string)

  const UserRole: string := "user"
  const SystemRole: string := "system"

  /** Number of messages in `msgs` whose role is `role`. */
  function CountRole(msgs: seq<Message>, role: string): nat
  {
    if msgs == [] then 0
    else (if msgs[0].role == role then 1 else 0) + CountRole(msgs[1..], role)
  }

  /** Counting distributes over concatenation. */
  lemma {:induction false} CountRoleAppend(a: seq<Message>, b: seq<Message>, role: string)
    ensures CountRole(a + b, role) == CountRole(a, role) + CountRole(b, role)
  {
    if a != [] {
      assert (a + b)[1..] == a[1..] + b;
      CountRoleAppend(a[1..], b, role);
    } else {
      assert a + b == b;
    }
  }

  /**
   * A Python list of messages: an object that several names can refer to,
   * so that appending through one name is visible through all of them.
   */
  class MessageList {
    var items: seq<Message>

    constructor (items: seq<Message>)
      ensures this.items == items
    {
      this.items := items;
    }

    /** `list.append(m)`. */
    method Append(m: Message)
      modifies this
      ensures items == old(items) + [m]
    {
      items := items + [m];
    }
  }
}
