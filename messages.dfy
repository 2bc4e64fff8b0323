/** A chat message: a reference object whose role is fixed at creation and
    whose text is mutated in place while a reply streams into it. */
module Messages {

  /** The four roles a message can have. */
  datatype Role = User | Assistant | System | Tool

  /** What the backend sees of a message: its role and its current text. */
  datatype Entry = Entry(role: Role, content: string)

  class Message {
    const role: Role
    var content: string

    constructor (role: Role, content: string)
      ensures this.role == role && this.content == content
    {
      this.role := role;
      this.content := content;
    }

    static method User(content: string) returns (m: Message)
      ensures fresh(m) && m.role == Role.User && m.content == content
    {
      m := new Message(Role.User, content);
    }

    static method Assistant(content: string) returns (m: Message)
      ensures fresh(m) && m.role == Role.Assistant && m.content == content
    {
      m := new Message(Role.Assistant, content);
    }

    static method System(content: string) returns (m: Message)
      ensures fresh(m) && m.role == Role.System && m.content == content
    {
      m := new Message(Role.System, content);
    }

    static method Tool(content: string) returns (m: Message)
      ensures fresh(m) && m.role == Role.Tool && m.content == content
    {
      m := new Message(Role.Tool, content);
    }
  }

  /** The entries of a transcript of message objects, in order. */
  function Entries(messages: seq<Message>): (r: seq<Entry>)
    reads messages
    ensures |r| == |messages|
    ensures forall i :: 0 <= i < |messages| ==> r[i] == Entry(messages[i].role, messages[i].content)
  {
    seq(|messages|, i requires 0 <= i < |messages| reads messages => Entry(messages[i].role, messages[i].content))
  }

  /** No message object occurs twice in a transcript. */
  ghost predicate Distinct(messages: seq<Message>) {
    forall i, j :: 0 <= i < j < |messages| ==> messages[i] != messages[j]
  }
}
