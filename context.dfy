/**
  The conversation context: a sliding-window message log with a metadata
  dictionary. The window keeps the newest `maxHistory` messages; older
  ones are dropped as new ones arrive.
 */
module Context {
  import opened Values

  /** A stored message. Its creation timestamp is not modelled. */
  datatype Message = Message(role: string, content: string, metadata: Dict)

  /** Content blocks of the structured messages exchanged with the LLM during tool use. */
  datatype Block =
    | ToolUseBlock(id: string, name: string, input: Value)
    /** `content` is the tool's result dictionary; the source sends its `str()` rendering. */
    | ToolResultBlock(toolUseId: string, content: Dict)

  datatype Content = Plain(text: string) | Blocks(blocks: seq<Block>)

  /** A `{"role": ..., "content": ...}` entry of a message list sent to the LLM. */
  datatype ChatMessage = ChatMessage(role: string, content: Content)

  const DefaultMaxHistory: nat := 50

  /** The newest `n` entries of `h`, in their original order. */
  function Window(h: seq<Message>, n: nat): seq<Message> {
    if |h| <= n then h else h[|h| - n..]
  }

  lemma WindowIsNewest(h: seq<Message>, n: nat)
    ensures |Window(h, n)| == if |h| <= n then |h| else n
    ensures forall i :: 0 <= i < |Window(h, n)| ==> Window(h, n)[i] == h[|h| - |Window(h, n)| + i]
  {
  }

  /** Appending to the window and trimming it again gives the window of the extended log. */
  lemma WindowStep(h: seq<Message>, m: Message, n: nat)
    requires n >= 1
    ensures Window(Window(h, n) + [m], n) == Window(h + [m], n)
  {
    if |h| > n {
      var w := Window(h, n);
      assert Window(w + [m], n) == (w + [m])[1..];
      assert (w + [m])[1..] == (h + [m])[|h| + 1 - n..];
    }
  }

  /** The role/content projection of the stored messages, as sent to the LLM. */
  function ForLlm(ms: seq<Message>): (r: seq<ChatMessage>)
    ensures |r| == |ms|
    ensures forall i :: 0 <= i < |ms| ==> r[i] == ChatMessage(ms[i].role, Plain(ms[i].content))
  {
    seq(|ms|, i requires 0 <= i < |ms| => ChatMessage(ms[i].role, Plain(ms[i].content)))
  }

  /** `metadata or {}` */
  function MetadataOrEmpty(metadata: Option<Dict>): Dict {
    if metadata.Some? then metadata.value else map[]
  }

  class ConversationContext {
    var messages: seq<Message>
    const maxHistory: nat
    var metadata: Dict
    /** Every message appended since construction or the last `Clear`. */
    ghost var appended: seq<Message>

    ghost predicate Valid()
      reads this
    {
      maxHistory >= 1 && messages == Window(appended, maxHistory)
    }

    constructor (maxHistory: nat)
      requires maxHistory >= 1
      ensures Valid()
      ensures this.maxHistory == maxHistory
      ensures messages == [] && appended == [] && metadata == map[]
    {
      this.maxHistory := maxHistory;
      messages := [];
      metadata := map[];
      appended := [];
    }

    method AddMessage(role: string, content: string, metadata: Option<Dict>)
      requires Valid()
      modifies this
      ensures Valid()
      ensures appended == old(appended) + [Message(role, content, MetadataOrEmpty(metadata))]
      ensures |messages| <= maxHistory
      ensures messages[|messages| - 1] == Message(role, content, MetadataOrEmpty(metadata))
      ensures this.metadata == old(this.metadata)
    {
      var message := Message(role, content, MetadataOrEmpty(metadata));
      WindowStep(appended, message, maxHistory);
      messages := messages + [message];
      if |messages| > maxHistory {
        messages := messages[|messages| - maxHistory..];
      }
      appended := appended + [message];
    }

    function GetMessages(): (r: seq<ChatMessage>)
      reads this
      ensures r == ForLlm(messages)
    {
      ForLlm(messages)
    }

    function GetLastMessage(): (r: Option<Message>)
      reads this
      ensures r.None? <==> messages == []
      ensures r.Some? ==> r.value == messages[|messages| - 1]
    {
      if messages != [] then Some(messages[|messages| - 1]) else None
    }

    method Clear()
      requires Valid()
      modifies this
      ensures Valid()
      ensures messages == [] && metadata == map[] && appended == []
    {
      messages := [];
      metadata := map[];
      appended := [];
    }

    method SetMetadata(key: string, value: Value)
      modifies this`metadata
      ensures metadata == old(metadata)[key := value]
      ensures forall default :: GetMetadata(key, default) == value
    {
      metadata := metadata[key := value];
    }

    function GetMetadata(key: string, default: Value): (r: Value)
      reads this
      ensures key in metadata ==> r == metadata[key]
      ensures key !in metadata ==> r == default
    {
      Get(metadata, key, default)
    }
  }

  /** With a positive bound, the newest message of the window is the last one appended. */
  lemma LastOfWindow(h: seq<Message>, n: nat)
    requires n >= 1 && h != []
    ensures Window(h, n) != [] && Window(h, n)[|Window(h, n)| - 1] == h[|h| - 1]
  {
    WindowIsNewest(h, n);
  }
}
