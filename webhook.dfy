/**
  The two request paths of the bot's web server: the Evolution API webhook,
  which decides whether an incoming WhatsApp message is answered, ignored
  or acknowledged without action, and the background task that answers a
  queued message with the agent's reply, or with an apology when the
  agent fails.
 */
module Webhook {
  import opened Common
  import opened Text
  import opened Json
  import Config
  import Http
  import opened BotTools

  const Queued: string := "message queued for processing"
  const Ignored: string := "message ignored - unauthorized sender"
  const NoAction: string := "webhook acknowledged - no action needed"
  const Apology: string := "Sorry, an error occurred while processing your request. Please try again later."

  /** The background task the webhook schedules: the sender as it appeared
      in the payload and the stripped message text. */
  datatype Task = Task(sender: Json, text: string)

  /** A 200 reply with its status text (and the task it scheduled, if any),
      or the 500 "Internal server error" every exception is turned into. */
  datatype Response =
    | Acknowledged(status: string, task: Option<Task>)
    | InternalError

  /** The webhook once the message object's `conversation` and the key
      object's `remoteJid` have been read: both must be truthy to act on. */
  function Decide(allowed: string, conversation: Json, sender: Json): (r: Response)
    ensures !(Truthy(conversation) && Truthy(sender)) ==> r == Acknowledged(NoAction, None)
    ensures r.Acknowledged? && r.task.Some? ==>
      && r.status == Queued
      && Contains(sender, allowed) == Ok(true)
      && r.task.value.sender == sender
      && conversation.JStr? && r.task.value.text == Strip(conversation.s)
    ensures r.Acknowledged? && r.status == Queued ==> r.task.Some?
    ensures Truthy(conversation) && Truthy(sender) && Contains(sender, allowed) == Ok(true) && conversation.JStr? ==>
      r == Acknowledged(Queued, Some(Task(sender, Strip(conversation.s))))
    ensures r == Acknowledged(Ignored, None) <==>
      Truthy(conversation) && Truthy(sender) && Contains(sender, allowed) == Ok(false)
    ensures r.InternalError? <==>
      Truthy(conversation) && Truthy(sender)
      && (Contains(sender, allowed).Err? || (Contains(sender, allowed) == Ok(true) && !conversation.JStr?))
  {
    if Truthy(conversation) && Truthy(sender) then
      match Contains(sender, allowed)
      case Err(_) => InternalError
      case Ok(false) => Acknowledged(Ignored, None)
      case Ok(true) =>
        if conversation.JStr? then Acknowledged(Queued, Some(Task(sender, Strip(conversation.s))))
        else InternalError
    else
      Acknowledged(NoAction, None)
  }

  /** `receive_webhook`: `data`, its `key` and its `message` default to empty
      objects, `conversation` and `remoteJid` to `None`; reading a field of
      something that is not an object, like a failure to load the settings,
      is an internal error. */
  function ReceiveWebhook(settings: Result<Config.Settings, seq<string>>, payload: map<string, Json>): (r: Response)
    ensures settings.Err? ==> r.InternalError?
    ensures settings.Ok? && "data" in payload && !payload["data"].JObj? ==> r.InternalError?
    ensures settings.Ok? && "data" !in payload ==> r == Acknowledged(NoAction, None)
    ensures settings.Ok? && "data" in payload && payload["data"].JObj? ==>
      var fields := payload["data"].fields;
      && ("key" in fields && !fields["key"].JObj? ==> r.InternalError?)
      && ("message" in fields && !fields["message"].JObj? ==> r.InternalError?)
      && ((("key" !in fields || fields["key"].JObj?) && ("message" !in fields || fields["message"].JObj?)
           && ("key" !in fields || "message" !in fields))
          ==> r == Acknowledged(NoAction, None))
    ensures settings.Ok? && "data" in payload && payload["data"].JObj? ==>
      var fields := payload["data"].fields;
      (("key" !in fields || fields["key"].JObj?) && ("message" !in fields || fields["message"].JObj?)) ==>
        var key := if "key" in fields then fields["key"].fields else map[];
        var message := if "message" in fields then fields["message"].fields else map[];
        r == Decide(settings.value.allowedWhatsappNumber,
                    if "conversation" in message then message["conversation"] else JNull,
                    if "remoteJid" in key then key["remoteJid"] else JNull)
    ensures r.Acknowledged? && r.task.Some? ==>
      && r.status == Queued
      && settings.Ok?
      && Contains(r.task.value.sender, settings.value.allowedWhatsappNumber) == Ok(true)
  {
    if settings.Err? then InternalError
    else
      var data := Get(JObj(payload), "data", JObj(map[])).value;
      var key := Get(data, "key", JObj(map[]));
      var message := Get(data, "message", JObj(map[]));
      if key.Err? || message.Err? then InternalError
      else
        var conversation := Get(message.value, "conversation", JNull);
        var sender := Get(key.value, "remoteJid", JNull);
        if conversation.Err? || sender.Err? then InternalError
        else Decide(settings.value.allowedWhatsappNumber, conversation.value, sender.value)
  }

  /** A payload of the shape the Evolution API delivers, with `conversation`
      and `remoteJid` present as strings or absent. */
  function Upsert(conversation: Option<string>, sender: Option<string>): map<string, Json> {
    var key := if sender.Some? then map["remoteJid" := JStr(sender.value)] else map[];
    var message := if conversation.Some? then map["conversation" := JStr(conversation.value)] else map[];
    map["data" := JObj(map["key" := JObj(key), "message" := JObj(message)])]
  }

  /** On a well-formed payload the webhook never fails: it queues the
      stripped text exactly when both fields are non-empty and the sender
      contains the allowed number, ignores the sender when only the last
      condition fails, and otherwise takes no action. */
  lemma WellFormedDecision(settings: Config.Settings, conversation: Option<string>, sender: Option<string>)
    ensures var r := ReceiveWebhook(Ok(settings), Upsert(conversation, sender));
      && r.Acknowledged?
      && (r.status == Queued <==>
            conversation.Some? && conversation.value != [] && sender.Some? && sender.value != []
            && IsSubstring(settings.allowedWhatsappNumber, sender.value))
      && (r.status == Queued ==> r.task == Some(Task(JStr(sender.value), Strip(conversation.value))))
      && (r.status == Ignored <==>
            conversation.Some? && conversation.value != [] && sender.Some? && sender.value != []
            && !IsSubstring(settings.allowedWhatsappNumber, sender.value))
      && (r.status == NoAction <==>
            conversation.None? || conversation.value == [] || sender.None? || sender.value == [])
  {
    var payload := Upsert(conversation, sender);
    var data := payload["data"];
    assert data.fields["key"].JObj? && data.fields["message"].JObj?;
    var c := if conversation.Some? then JStr(conversation.value) else JNull;
    var s := if sender.Some? then JStr(sender.value) else JNull;
    assert Get(data.fields["message"], "conversation", JNull) == Ok(c);
    assert Get(data.fields["key"], "remoteJid", JNull) == Ok(s);
    assert ReceiveWebhook(Ok(settings), payload) == Decide(settings.allowedWhatsappNumber, c, s);
  }

  /** Whatever else the payload carries, a non-empty text from a sender that
      contains the allowed number is queued with its stripped text. */
  lemma AuthorisedMessageQueued(settings: Config.Settings, payload: map<string, Json>,
                                key: map<string, Json>, message: map<string, Json>)
    requires "data" in payload && payload["data"].JObj?
    requires "key" in payload["data"].fields && payload["data"].fields["key"] == JObj(key)
    requires "message" in payload["data"].fields && payload["data"].fields["message"] == JObj(message)
    requires "remoteJid" in key && key["remoteJid"].JStr? && key["remoteJid"].s != []
    requires "conversation" in message && message["conversation"].JStr? && message["conversation"].s != []
    requires IsSubstring(settings.allowedWhatsappNumber, key["remoteJid"].s)
    ensures ReceiveWebhook(Ok(settings), payload)
      == Acknowledged(Queued, Some(Task(key["remoteJid"], Strip(message["conversation"].s))))
  {
    assert Contains(key["remoteJid"], settings.allowedWhatsappNumber) == Ok(true);
  }

  /** What the agent run came back with: its reply text, or the exception it raised. */
  datatype AgentOutcome = Replied(output: string) | Raised(message: string)

  /** `process_agent_and_reply`: the agent's reply is sent to the sender;
      when the agent raises, the apology is sent to the same sender instead.
      The send tool reports its own failures, so the function itself attempts
      exactly one send either way (sends the agent makes through its own tools
      during the run are not part of this model). */
  function ProcessAgentAndReply(settings: Config.Settings, sender: string, agent: AgentOutcome,
                                response: Http.Outcome): (d: Delivery)
    ensures d.request.None? <==> !IsSubstring(settings.allowedWhatsappNumber, sender)
    ensures d.request.Some? ==>
      && d.request.value.number == CleanNumber(sender)
      && d.request.value.text == (if agent.Replied? then agent.output else Apology)
  {
    match agent
    case Replied(output) => SendWhatsappMessage(settings, sender, output, response)
    case Raised(_) => SendWhatsappMessage(settings, sender, Apology, response)
  }

  /** A message the webhook queues for a string sender always gets a reply
      request to that sender's number: the webhook's guard implies the send
      tool's guard. */
  lemma {:induction false} QueuedMessageIsAnswered(settings: Config.Settings, payload: map<string, Json>,
                                                  sender: string, text: string, agent: AgentOutcome,
                                                  response: Http.Outcome)
    requires ReceiveWebhook(Ok(settings), payload) == Acknowledged(Queued, Some(Task(JStr(sender), text)))
    ensures ProcessAgentAndReply(settings, sender, agent, response).request.Some?
    ensures ProcessAgentAndReply(settings, sender, agent, response).request.value.number == CleanNumber(sender)
  {
    assert Contains(JStr(sender), settings.allowedWhatsappNumber) == Ok(IsSubstring(settings.allowedWhatsappNumber, sender));
  }
}
