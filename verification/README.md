# Notify Me: the notification listener as a transition system

Notify Me relays chat notifications from an Android phone. Its
`NotificationListener` service reacts to ten kinds of event:

- a notification posted or removed;
- a switch broadcast;
- the listener's own connect and disconnect;
- a reply payload from the MQTT broker;
- an answer from the conversational assistant;
- the broker session coming up, being lost, or being closed.

Depending on four switches it does one of three things:

- it greets a WhatsApp or Messenger sender with a canned message and then hands
  the sender's later messages to the assistant (assist mode);
- it forwards the conversation to a remote peer over MQTT and injects the
  peer's reply (forwarding, the `notify` switch);
- it does nothing.

This project models that routing logic as pure functions. Each callback is a
function from the listener's state to a `Transition`: the next state plus the
effects the callback produces, in source order. The effects are publish,
inject, ask the assistant, connect, subscribe, disconnect and persist a
switch. `Step` dispatches one `Event` and `Run` folds a sequence of events.
Runtime failures of the source are `Err` results:

- a reply payload whose id has no registry entry (a null dereference);
- a greeting for a sender made only of spaces (`split(" ")[0]` fails).

Files:

- `common.dfy` defines `Option`.
- `strings.dfy` defines the `String` operations used: `toLowerCase`,
  `replace("+", "")`, `contains` and `split(" ")[0]`.
- `notifications.dfy` defines notifications, actions, reply handles, and the
  loop that keeps the last action with remote inputs.
- `model.dfy` defines state, events, effects and faults.
- `listener.dfy` has one function per callback.
- `properties.dfy` has the lemmas that relate several calls, and an invariant
  of every reachable state: registry keys are lower case and the device number
  has no `+`.

The model follows the code, including these behaviours, some of which a
cleaner relay would not have:

- A registry entry is removed only after a send that is *not* cancelled.
  A cleaner relay would remove it whatever the outcome.
- An entry is stored only when the client is already connected. Otherwise the
  notification is dropped and a new session is set up.
- A greeted sender is recorded only while forwarding is off. With assist and
  forwarding both on, a sender is greeted again on every notification, and the
  greeting's `hashMap.remove(null)` retires nothing.
- An assistant answer retires the registry entry keyed by the sender's name as
  it appears, not lower-cased. So it never retires an entry for a name that
  contains an upper-case letter.
- An answer is sent through the shared `remoteInputs`/`pendingIntent` fields as
  they are when it arrives, not through the handle of the notification it
  answers.
- The summary guard `!contains("new messages") || !contains("new message")` is
  kept as written. `DigestFilterIsPluralCheck` proves it means only "does not
  contain `new messages`", so a text reading "1 new message" still reaches the
  assistant.
- Every session set-up replaces the client with a new, unconnected one, even
  when forwarding is switched on while already connected. Until the broker
  reports the new client up, forwarded notifications only set up yet another
  session.
- An unknown reply id is a fault, not a silently dropped message.

## Model

| member | source | states |
|---|---|---|
| Strings.Lower | android/app/src/main/java/vishal/vaf/notifyme/services/NotificationListener.java:258 | the id is the sender with every letter lowered, same length, no upper-case letter left |
| Strings.LowerIdempotent | android/app/src/main/java/vishal/vaf/notifyme/services/NotificationListener.java:267 | lowering a lowered id changes nothing, so registry keys are fixed points of lowering |
| Strings.StripPlus | android/app/src/main/java/vishal/vaf/notifyme/services/NotificationListener.java:157 | the device number has no `+` left, and a number without `+` is unchanged |
| Strings.StripPlusCounts | android/app/src/main/java/vishal/vaf/notifyme/services/NotificationListener.java:157 | stripping keeps the count of every character other than `+`, and the length drops by the number of `+` signs |
| Strings.StripPlusAppend | android/app/src/main/java/vishal/vaf/notifyme/services/NotificationListener.java:157 | stripping a concatenation is the concatenation of the stripped parts, so the kept characters stay in their order |
| Strings.StripPlusCons | android/app/src/main/java/vishal/vaf/notifyme/services/NotificationListener.java:157 | stripping keeps a leading character exactly when it is not `+` |
| Strings.Contains | android/app/src/main/java/vishal/vaf/notifyme/services/NotificationListener.java:429 | `contains` is true exactly when the pattern occurs at some index |
| Strings.ContainsPrefix | android/app/src/main/java/vishal/vaf/notifyme/services/NotificationListener.java:429 | a text containing a pattern contains every prefix of it |
| Strings.FirstToken | android/app/src/main/java/vishal/vaf/notifyme/services/NotificationListener.java:290 | `split(" ")[0]` fails exactly for a non-empty all-space name, and otherwise yields the text before the first space |
| Strings.UpToSpace | android/app/src/main/java/vishal/vaf/notifyme/services/NotificationListener.java:290 | the text before the first space is a space-free prefix followed by a space or the end |
| Notifications.LastReplyIndex | android/app/src/main/java/vishal/vaf/notifyme/services/NotificationListener.java:246-251 | the capture loop ends on the last non-null action with remote inputs, or on none |
| Notifications.CapturedIsLastReplyable | android/app/src/main/java/vishal/vaf/notifyme/services/NotificationListener.java:201-207 | the captured inputs and intent are those of the last replyable action; both stay null when there is none |
| Listener.ReplyText | android/app/src/main/java/vishal/vaf/notifyme/services/NotificationListener.java:288-296 | an explicit message is used verbatim; otherwise "Hey " + first word of sender + ", " + the channel's canned message, failing only for a blank sender |
| Listener.FillAll | android/app/src/main/java/vishal/vaf/notifyme/services/NotificationListener.java:289-291 | every reply slot, in order, receives the same text |
| Listener.Delivered | android/app/src/main/java/vishal/vaf/notifyme/services/NotificationListener.java:299-308 | after a send with forwarding off the sender joins its channel's greeted list and the registry is untouched; with forwarding on the lists are untouched and exactly the entry for the given id is removed |
| Listener.Reply | android/app/src/main/java/vishal/vaf/notifyme/services/NotificationListener.java:280-312 | with no remote inputs or no pending intent nothing happens; it faults exactly when a WhatsApp or Messenger greeting with at least one slot has a blank sender; otherwise one injection into the target with all slots filled, and the state changes only if the send is not cancelled |
| Listener.Conversational | android/app/src/main/java/vishal/vaf/notifyme/services/NotificationListener.java:412-451 | a replyable action overwrites the shared handle, otherwise it is kept; the text is asked of the assistant iff the summary guard holds; nothing else changes |
| Listener.OnAssist | android/app/src/main/java/vishal/vaf/notifyme/services/NotificationListener.java:187-235 | an already greeted sender only goes to the assistant; an ungreeted sender is greeted through the last replyable action if the channel is on; other packages are ignored |
| Listener.Outbound | android/app/src/main/java/vishal/vaf/notifyme/services/NotificationListener.java:255-259 | the forwarded payload's id is the lower-cased name; the message and app name come from the notification |
| Listener.Forward | android/app/src/main/java/vishal/vaf/notifyme/services/NotificationListener.java:237-278 | only WhatsApp or Messenger notifications with an action count; when connected: one publish on `<phone>_send`, the entry for the lower-cased sender set or overwritten, all other entries kept; when not connected: a new session and no other change |
| Listener.OnPosted | android/app/src/main/java/vishal/vaf/notifyme/services/NotificationListener.java:121-127 | assist takes precedence; forwarding applies only with assist off; with both off nothing happens |
| Listener.OnRemoved | android/app/src/main/java/vishal/vaf/notifyme/services/NotificationListener.java:129-144 | with forwarding on and a connected client, a WhatsApp or Messenger removal publishes exactly the lower-cased sender on `notification`; otherwise nothing; the state never changes |
| Listener.OnToggle | android/app/src/main/java/vishal/vaf/notifyme/services/NotificationListener.java:316-349 | the switch becomes `extra == "1"` and is persisted; the other switches are kept; turning a channel off empties only its greeted list; turning forwarding on sets up a new session, which is not connected; turning it off closes the session; the registry is kept |
| Listener.OnListenerConnected | android/app/src/main/java/vishal/vaf/notifyme/services/NotificationListener.java:153-169 | switches come from the stored preferences; the number is the stored one with `+` removed, other characters kept in count and order; a session is set up iff forwarding is on, and a new session is not connected; nothing else changes |
| Listener.OnListenerDisconnected | android/app/src/main/java/vishal/vaf/notifyme/services/NotificationListener.java:176-185 | both greeted lists are emptied, nothing else changes, the session is closed |
| Listener.OnInbound | android/app/src/main/java/vishal/vaf/notifyme/services/NotificationListener.java:392-403 | a reply payload faults iff its id is unregistered; otherwise its message goes verbatim through that entry's handle, with the id to retire |
| Listener.OnAnswer | android/app/src/main/java/vishal/vaf/notifyme/services/NotificationListener.java:442-447 | an answer never faults; a failed request does nothing; an answer is sent through the shared handle with the raw sender as the id |
| Listener.Step | android/app/src/main/java/vishal/vaf/notifyme/services/NotificationListener.java:359-403 | faults arise only from an unregistered reply id or from greeting a blank sender in assist mode |
| ListenerProperties.ModePriority | android/app/src/main/java/vishal/vaf/notifyme/services/NotificationListener.java:121-127 | with assist on, a posting never publishes, connects or touches the registry; with only forwarding on, nothing is injected or asked and the greeted lists and shared handle stay |
| ListenerProperties.GreetedSenderNotGreetedAgain | android/app/src/main/java/vishal/vaf/notifyme/services/NotificationListener.java:198-233 | a sender on the channel's greeted list gets no injection; only the shared handle may change, and the only effect is the assistant question if the guard holds |
| ListenerProperties.GreetThenConverse | android/app/src/main/java/vishal/vaf/notifyme/services/NotificationListener.java:198-233 | the first WhatsApp message greets the sender through the captured handle and records them; the next one from the same sender is not greeted |
| ListenerProperties.GreetingExample | android/app/src/main/java/vishal/vaf/notifyme/services/NotificationListener.java:290 | a sender named "Alice Smith" is greeted "Hey Alice, " followed by the WhatsApp canned message |
| ListenerProperties.AliceFirstWord | android/app/src/main/java/vishal/vaf/notifyme/services/NotificationListener.java:290 | `"Alice Smith".split(" ")[0]` is "Alice" |
| ListenerProperties.ForwardOverwrites | android/app/src/main/java/vishal/vaf/notifyme/services/NotificationListener.java:267 | two forwards for the same conversation leave one entry, holding the later handle |
| ListenerProperties.ForwardThenInbound | android/app/src/main/java/vishal/vaf/notifyme/services/NotificationListener.java:265-311 | a forwarded notification answered with its own id is replied to through exactly its captured handle; the entry is removed iff the send is not cancelled |
| ListenerProperties.DismissalNamesForwardedConversation | android/app/src/main/java/vishal/vaf/notifyme/services/NotificationListener.java:133-138 | the dismissal carries the same id the forwarded payload and the registry key use |
| ListenerProperties.DigestFilterIsPluralCheck | android/app/src/main/java/vishal/vaf/notifyme/services/NotificationListener.java:429 | the guard holds exactly when the text does not contain "new messages" |
| ListenerProperties.SingularDigestPasses | android/app/src/main/java/vishal/vaf/notifyme/services/NotificationListener.java:429 | "1 new message" passes the guard |
| ListenerProperties.PluralDigestBlocked | android/app/src/main/java/vishal/vaf/notifyme/services/NotificationListener.java:429 | "3 new messages" does not pass the guard |
| ListenerProperties.LaterCaptureRedirectsAnswer | android/app/src/main/java/vishal/vaf/notifyme/services/NotificationListener.java:419-445 | an answer to one sender's question is injected into the target of a later notification captured before the answer arrived |
| ListenerProperties.StaleCaptureReceivesAnswer | android/app/src/main/java/vishal/vaf/notifyme/services/NotificationListener.java:419-445 | a question from a notification with no replyable action is answered through the previously captured target |
| ListenerProperties.StepKeepsValid | android/app/src/main/java/vishal/vaf/notifyme/services/NotificationListener.java:157-267 | every event that does not fault keeps registry keys lower case and the number free of `+` |
| ListenerProperties.RunKeepsValid | android/app/src/main/java/vishal/vaf/notifyme/services/NotificationListener.java:157-267 | the same invariant holds after every run of events that does not fault |
| ListenerProperties.MixedCaseIdFaults | android/app/src/main/java/vishal/vaf/notifyme/services/NotificationListener.java:400-402 | in a valid state, a reply payload whose id has an upper-case letter always hits the null dereference |
| ListenerProperties.AnswerKeepsRegistryForMixedCaseSender | android/app/src/main/java/vishal/vaf/notifyme/services/NotificationListener.java:445 | an answer for a sender with an upper-case letter never removes a registry entry |
| ListenerProperties.ChannelOffOnForgetsGreetings | android/app/src/main/java/vishal/vaf/notifyme/services/NotificationListener.java:335-340 | switching WhatsApp off and on again forgets every WhatsApp greeting and leaves Messenger's list and the registry alone |
| ListenerProperties.DisconnectForgetsGreetings | android/app/src/main/java/vishal/vaf/notifyme/services/NotificationListener.java:176-179 | after a listener disconnect no sender counts as greeted on any channel |
| ListenerProperties.TopicsDistinct | android/app/src/main/java/vishal/vaf/notifyme/services/NotificationListener.java:266 | send, receive and dismissal topics never coincide, and distinct numbers give distinct send and receive topics |
| ListenerProperties.ConnectLeavesUnconnected | android/app/src/main/java/vishal/vaf/notifyme/services/NotificationListener.java:352-359 | any event that sets up a session leaves the listener unconnected, because `setupMqtt` installs a new client |
| ListenerProperties.UnconnectedStepIsSilent | android/app/src/main/java/vishal/vaf/notifyme/services/NotificationListener.java:265-271 | while unconnected, any event other than the broker reporting up publishes nothing, stays unconnected and registers no new conversation |
| ListenerProperties.SilentUntilBrokerUp | android/app/src/main/java/vishal/vaf/notifyme/services/NotificationListener.java:265-271 | from an unconnected state, a run with no broker-up event publishes nothing and registers no new conversation |
| ListenerProperties.ReToggleThenPostSetsUpAgain | android/app/src/main/java/vishal/vaf/notifyme/services/NotificationListener.java:323-328 | switching forwarding on again while connected drops the connection, so the next forwarded notification only sets up a session again |
| ListenerProperties.StripPlusExample | android/app/src/main/java/vishal/vaf/notifyme/services/NotificationListener.java:157 | the stored number "+12" becomes "12" |
| ListenerProperties.ZeroSlotGreetingSends | android/app/src/main/java/vishal/vaf/notifyme/services/NotificationListener.java:288-300 | a greeting through an action with no reply slots sends the intent with nothing filled in, even for a blank sender |
| ListenerProperties.LostThenUpResubscribes | android/app/src/main/java/vishal/vaf/notifyme/services/NotificationListener.java:359-389 | after the connection is lost a session is set up, and once it is up it subscribes to `<phone>_receive` again |

## Left out

- MQTT client lifecycle. `setupMqtt`'s options, the asynchronous connect,
  `reconnect` after a failed connect, and paho's own automatic reconnection are
  not modelled. The client is a `connected` bit moved by the `BrokerUp`,
  `BrokerLost` and `BrokerClosed` events. The model only emits `Connect`,
  `Subscribe` and `Disconnect` effects.
- A null `client`, that is, no session set up since the service started. The
  model assumes a client exists. In the source the outcome depends on the
  callback:
  - Forwarding dereferences null at line 265. The `catch` at line 273 swallows
    the exception, so nothing is published, nothing is registered and no
    session is set up. The model instead sets up a session, as it does for a
    disconnected client.
  - A removal (line 138), a listener disconnect (line 181) and switching
    forwarding off (line 330) crash. Their `catch` clauses take only
    `MqttException`.
- The assistant service and `AsyncTask`. A question is an `Ask` effect. Its
  answer, or a failed request (`None`), comes back as an `Answered` event.
- JSON parsing. A payload is a four-field record. A field that `optString`
  reads as missing arrives as `""` in the record. Malformed JSON, which throws
  in `messageArrived`, is not modelled.
- Android types. `Bundle` contents are not modelled. In the source, reply text
  is written into the notification's own extras bundle, and a reply for an
  unknown package sends whatever that bundle already holds; the model records
  no fills for it. `PendingIntent.send` is an `Inject` effect whose outcome is
  the event's `sent` flag. `SharedPreferences` writes are `Persist` effects.
  The canned greetings are a `Canned` parameter read at each step.
- Null titles, texts and switch extras. All of them are plain strings here.
  In the source:
  - A null title while forwarding fails at line 258. The `catch` at line 273
    swallows it, so nothing happens.
  - A null title crashes a removal at line 133. In assist mode it crashes a
    greeting at line 290 when the captured action has reply slots.
  - A null text while forwarding does not throw. `JSONObject.put` with a null
    value drops the key, so the payload has no `message` field.
  - A null text crashes the assistant guard at line 429.
  - A null switch extra crashes the `.equals` at line 319, 323, 336 or 342.
- Events before the first listener connect. `onCreate` registers the switch
  receiver at line 117, but `editor` and `sharedPreferences` are assigned only
  in `onListenerConnected` (lines 155-156). In the source, a switch broadcast
  that arrives first throws a `NullPointerException` at `editor.putBoolean`
  (line 320, 324, 337 or 343), and nothing catches it. In the model, `Init`
  is the state as constructed, and such a broadcast succeeds from it.
  Notifications posted before the first connect are not modelled either.
- A null speech in a non-null assistant response. In the source, `reply` at
  line 445 then takes the `message == null` branch at line 290 or 294. It
  re-sends the canned greeting, or crashes for a blank sender. In the model,
  `speech: None` stands only for a failed request, which does nothing.
- Strings.Lower: lowers ASCII letters only. Java's `toLowerCase` is
  locale-dependent Unicode case mapping.
- `onCreate` and `onDestroy` register and unregister the broadcast receiver.
  This is plumbing with no state of the model.
- The customization screen only stores the two canned strings.
- Concurrency between the capture, broker and assistant callbacks. Events are
  assumed to be serialised.
