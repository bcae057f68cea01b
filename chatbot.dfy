/** The chat clients of the sub-task generator
    (models/outdoor/navigation/target_gen/llm.py): `ChatBot`, whose request
    payload holds the model name, the token budget and the message list
    that its methods append to and extend in place, and `OpenAIChatBot`,
    which keeps the system prompt apart from its message list. Sending a
    request, reading the environment and encoding an image file are
    outside the model: the API key is given, and the image encoder is a
    function parameter. */
module ChatBot {
  import opened Wrappers
  import opened Json

  /** One entry of `payload['messages']`: `{'role': ..., 'content': ...}`. */
  datatype Message = Message(role: string, content: Json)

  /** One part of a user message's content list. */
  function TextPart(message: string): Json {
    Obj([("type", Str("text")), ("text", Str(message))])
  }

  function ImagePart(url: string): Json {
    Obj([("type", Str("image_url")), ("image_url", Obj([("url", Str(url))]))])
  }

  /** The message list and the error, if any, after `add_message`. The
      last message must exist (`IndexError` otherwise); unless it is a
      user message, an empty user message is appended first. Only then is
      the type checked, so a `ValueError` leaves that new message in
      place. A user message whose content is not a list cannot be
      appended to (`AttributeError`). */
  function AddedMessage(msgs: seq<Message>, message: string, messageType: string, encode: string -> string):
    (r: (seq<Message>, Option<Error>))
  {
    if msgs == [] then (msgs, Some(IndexError))
    else
      var buffered := if msgs[|msgs| - 1].role != "user" then msgs + [Message("user", Arr([]))] else msgs;
      var last := buffered[|buffered| - 1];
      if messageType != "text" && messageType != "image_url" then
        (buffered, Some(ValueError("Invalid message type: " + messageType)))
      else if !last.content.Arr? then (buffered, Some(AttributeError))
      else
        var part := if messageType == "text" then TextPart(message) else ImagePart(encode(message));
        (buffered[..|buffered| - 1] + [Message("user", Arr(last.content.items + [part]))], None)
  }

  /** `add_message` fails exactly on an empty list, an unknown type or a
      last user message whose content is not a list. */
  lemma AddedMessageErrors(msgs: seq<Message>, message: string, messageType: string, encode: string -> string)
    ensures var (after, err) := AddedMessage(msgs, message, messageType, encode);
      (err == Some(IndexError) <==> msgs == []) &&
      (msgs != [] && messageType != "text" && messageType != "image_url" ==>
        err == Some(ValueError("Invalid message type: " + messageType))) &&
      (err.None? <==> (msgs != [] && (messageType == "text" || messageType == "image_url") &&
        (msgs[|msgs| - 1].role == "user" ==> msgs[|msgs| - 1].content.Arr?)))
  {
  }

  /** `add_message` keeps every earlier message but the last, adds at most
      one message, and on success leaves a user message last whose content
      is the previous user content (or nothing) followed by the new part. */
  lemma AddedMessageShape(msgs: seq<Message>, message: string, messageType: string, encode: string -> string)
    requires msgs != []
    ensures var (after, err) := AddedMessage(msgs, message, messageType, encode);
      |msgs| <= |after| <= |msgs| + 1 &&
      after[..|msgs| - 1] == msgs[..|msgs| - 1] &&
      (|after| == |msgs| + 1 <==> msgs[|msgs| - 1].role != "user") &&
      (|after| == |msgs| + 1 ==> after[|msgs| - 1] == msgs[|msgs| - 1]) &&
      (err.None? ==> (after[|after| - 1].role == "user" && after[|after| - 1].content.Arr? &&
        var before := if msgs[|msgs| - 1].role == "user" then msgs[|msgs| - 1].content.items else [];
        after[|after| - 1].content.items ==
          before + [if messageType == "text" then TextPart(message) else ImagePart(encode(message))]))
  {
    var (after, err) := AddedMessage(msgs, message, messageType, encode);
    var buffered := if msgs[|msgs| - 1].role != "user" then msgs + [Message("user", Arr([]))] else msgs;
    assert buffered[..|msgs| - 1] == msgs[..|msgs| - 1];
    if err.None? {
      assert after[..|buffered| - 1] == buffered[..|buffered| - 1];
    }
  }

  /** `response['choices'][0]['message']['content']`, each step raising
      what Python raises on a value of the wrong shape. */
  function ResponseContent(response: Json): (r: Result<Json>)
    ensures r.Ok? ==> exists choices, choice, message ::
      Key(response, "choices") == Ok(choices) && First(choices) == Ok(choice) &&
      Key(choice, "message") == Ok(message) && Key(message, "content") == r
  {
    match Key(response, "choices")
    case Err(e) => Err(e)
    case Ok(choices) =>
      match First(choices)
      case Err(e) => Err(e)
      case Ok(choice) =>
        match Key(choice, "message")
        case Err(e) => Err(e)
        case Ok(message) => Key(message, "content")
  }

  /** `ChatBot`: the request payload of one conversation. */
  class ChatBot {
    var id: string
    var apiKey: string
    var model: string
    var messages: seq<Message>
    var maxTokens: int
    var temperature: real
    var topP: real

    /** A new bot starts with no messages. */
    constructor(id: string, model: string, apiKey: string, maxTokens: int, temperature: real, topP: real)
      ensures this.id == id && this.apiKey == apiKey && this.model == model && messages == []
      ensures this.maxTokens == maxTokens && this.temperature == temperature && this.topP == topP
    {
      this.id := id;
      this.apiKey := apiKey;
      this.model := model;
      messages := [];
      this.maxTokens := maxTokens;
      this.temperature := temperature;
      this.topP := topP;
    }

    /** `bot.model = value`: the getter returns it afterwards, nothing else
        changes. */
    method SetModel(value: string)
      modifies this
      ensures model == value
      ensures messages == old(messages) && maxTokens == old(maxTokens) && id == old(id)
      ensures apiKey == old(apiKey) && temperature == old(temperature) && topP == old(topP)
    {
      model := value;
    }

    /** `bot.max_tokens = value`. */
    method SetMaxTokens(value: int)
      modifies this
      ensures maxTokens == value
      ensures messages == old(messages) && model == old(model) && id == old(id)
      ensures apiKey == old(apiKey) && temperature == old(temperature) && topP == old(topP)
    {
      maxTokens := value;
    }

    /** `add_prompt`: exactly one system message is appended. */
    method AddPrompt(prompt: string)
      modifies this
      ensures messages == old(messages) + [Message("system", Str(prompt))]
      ensures model == old(model) && maxTokens == old(maxTokens) && id == old(id)
      ensures apiKey == old(apiKey) && temperature == old(temperature) && topP == old(topP)
    {
      messages := messages + [Message("system", Str(prompt))];
    }

    /** `add_message`, with `encode_image` as `encode`: the new message
        list is the one `AddedMessage` describes, also when it raises. */
    method AddMessage(message: string, messageType: string, encode: string -> string) returns (err: Option<Error>)
      modifies this
      ensures (messages, err) == AddedMessage(old(messages), message, messageType, encode)
      ensures model == old(model) && maxTokens == old(maxTokens) && id == old(id)
      ensures apiKey == old(apiKey) && temperature == old(temperature) && topP == old(topP)
    {
      if messages == [] {
        return Some(IndexError);
      }
      if messages[|messages| - 1].role != "user" {
        messages := messages + [Message("user", Arr([]))];
      }
      var buffer := messages[|messages| - 1];
      var part: Json;
      if messageType == "text" {
        part := TextPart(message);
      } else if messageType == "image_url" {
        part := ImagePart(encode(message));
      } else {
        return Some(ValueError("Invalid message type: " + messageType));
      }
      if !buffer.content.Arr? {
        return Some(AttributeError);
      }
      messages := messages[..|messages| - 1] + [Message("user", Arr(buffer.content.items + [part]))];
      err := None;
    }

    /** `parse_response`: the content of the first choice is returned and
        appended as one assistant message; a response of another shape
        raises and changes nothing. */
    method ParseResponse(response: Json) returns (r: Result<Json>)
      modifies this
      ensures r == ResponseContent(response)
      ensures r.Ok? ==> messages == old(messages) + [Message("assistant", r.value)]
      ensures r.Err? ==> messages == old(messages)
      ensures model == old(model) && maxTokens == old(maxTokens) && id == old(id)
      ensures apiKey == old(apiKey) && temperature == old(temperature) && topP == old(topP)
    {
      r := ResponseContent(response);
      if r.Ok? {
        messages := messages + [Message("assistant", r.value)];
      }
    }
  }

  /** `OpenAIChatBot`: the system prompt is a field of its own (unset until
      given), and every added message is a user message. */
  class OpenAIChatBot {
    var id: string
    var model: string
    var messages: seq<Message>
    var prompt: Option<string>

    constructor(id: string, model: string)
      ensures this.id == id && this.model == model && messages == [] && prompt.None?
    {
      this.id := id;
      this.model := model;
      messages := [];
      prompt := None;
    }

    /** `add_prompt`: the prompt is stored, the messages are kept. */
    method AddPrompt(p: string)
      modifies this
      ensures prompt == Some(p)
      ensures messages == old(messages) && id == old(id) && model == old(model)
    {
      prompt := Some(p);
    }

    /** `add_message`: one user message holding the text. */
    method AddMessage(message: string)
      modifies this
      ensures messages == old(messages) + [Message("user", Str(message))]
      ensures prompt == old(prompt) && id == old(id) && model == old(model)
    {
      messages := messages + [Message("user", Str(message))];
    }

    /** `load_prompt_and_instruction_sub_task_gen`: only the bot named
        'sub_task_gen' takes the system prompt and the generation prompt;
        any other bot is left as it was. */
    method LoadSubTaskGen(systemPrompt: string, genPrompt: string)
      modifies this
      ensures id == "sub_task_gen" ==>
        prompt == Some(systemPrompt) && messages == old(messages) + [Message("user", Str(genPrompt))]
      ensures id != "sub_task_gen" ==> prompt == old(prompt) && messages == old(messages)
      ensures id == old(id) && model == old(model)
    {
      if id == "sub_task_gen" {
        prompt := Some(systemPrompt);
        AddMessage(genPrompt);
      }
    }
  }
}
