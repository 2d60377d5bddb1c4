/** The listener's state, the events it reacts to and the effects it produces. */
module Model {
  import opened Common
  import opened Notifications

  /** The four feature switches: assistant, forwarding ("notify"), WhatsApp, Messenger. */
  datatype Flags = Flags(assist: bool, notify: bool, whatsApp: bool, messenger: bool)

  /**
    The listener's fields: the switches, the senders already greeted on each
    channel (`waList`, `fbMsgList`, lists that may repeat), the conversation
    registry keyed by lower-cased sender (`hashMap`), whether the broker client
    is connected, the device id used in topic names, and the shared handle the
    assistant's answers are sent through (`remoteInputs`, `pendingIntent`).
   */
  datatype State = State(
    flags: Flags,
    waGreeted: seq<string>,
    fbGreeted: seq<string>,
    registry: map<string, Handle>,
    connected: bool,
    phone: string,
    shared: Handle)

  /**
    The listener as constructed: every switch off, nothing recorded, no broker
    session. The callbacks are modelled as if the preferences were already
    open; a switch broadcast or posting before the first listener connect is
    not modelled.
   */
  const Init: State := State(Flags(false, false, false, false), [], [], map[], false, "", NoHandle)

  /** The canned greetings the user configured (`assist_wa_msg`, `assist_fb_msg`). */
  datatype Canned = Canned(whatsApp: string, messenger: string)

  /** Preferences read when the listener connects: device number and the four switches. */
  datatype Stored = Stored(phone: string, assist: bool, notify: bool, whatsApp: bool, messenger: bool)

  /** The four-field JSON object exchanged with the remote peer. */
  datatype Payload = Payload(name: string, message: string, id: string, appName: string)

  /** A broker message body: the JSON object, or raw text (the dismissal signal). */
  datatype Body = Json(payload: Payload) | Raw(raw: string)

  /** One reply-input slot filled with text. */
  datatype Fill = Fill(key: InputKey, text: string)

  /** A question handed to the assistant, with the sender and package its answer is for. */
  datatype Query = Query(text: string, sender: string, pkg: string)

  datatype Effect =
    | Publish(topic: string, body: Body)          // client.publish, QoS 1, not retained
    | Inject(target: Target, fills: seq<Fill>)    // pendingIntent.send with the filled slots
    | Ask(query: Query)                           // background request to the assistant
    | Connect                                     // setupMqtt: a fresh client connects
    | Subscribe(topic: string)                    // client.subscribe, QoS 1
    | Disconnect                                  // client.disconnect
    | Persist(key: string, value: bool)           // editor.putBoolean

  /** The broadcast actions that flip a switch. */
  datatype Switch = AssistSwitch | NotifySwitch | WhatsAppSwitch | MessengerSwitch

  /**
    Everything that reaches the listener. `sent` is the outcome the platform
    gives a reply attempt made while handling the event (false when
    `PendingIntent.send` reports the target cancelled).
   */
  datatype Event =
    | Posted(notification: Notification, sent: bool)
    | Removed(notification: Notification)
    | Toggled(toggle: Switch, extra: string)
    | ListenerConnected(stored: Stored)
    | ListenerDisconnected
    | Inbound(payload: Payload, sent: bool)
    | Answered(query: Query, speech: Option<string>, sent: bool)
    | BrokerUp
    | BrokerLost
    | BrokerClosed

  /** Runtime failures of the source: a null registry lookup, and `split(" ")[0]` on a blank sender. */
  datatype Fault = UnknownConversation(id: string) | BlankSender(sender: string)

  datatype Transition = Transition(state: State, effects: seq<Effect>)

  datatype Result<T> = Ok(value: T) | Err(fault: Fault)

}
