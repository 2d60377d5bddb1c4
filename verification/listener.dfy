/**
  The event routing of the notification listener, one pure function per
  callback. Each returns the next state and the effects the callback
  produces, in the order the source produces them.
 */
module Listener {
  import opened Common
  import opened Strings
  import opened Notifications
  import opened Model

  const WhatsAppPackage := "com.whatsapp"
  const MessengerPackage := "com.facebook.orca"

  /** The fixed topic of the dismissal signal. */
  const DismissTopic := "notification"

  const AssistKey := "is_assist_on"
  const NotifyKey := "is_notify_on"
  const WhatsAppKey := "is_wa_on"
  const MessengerKey := "is_fb_msg_on"

  /** The markers of a channel's summary notification. */
  const DigestMany := "new messages"
  const DigestOne := "new message"

  predicate Supported(pkg: string) {
    pkg == WhatsAppPackage || pkg == MessengerPackage
  }

  /** Topic the listener publishes conversations on. */
  function SendTopic(phone: string): string {
    phone + "_send"
  }

  /** Topic the listener subscribes to for the peer's replies. */
  function ReceiveTopic(phone: string): string {
    phone + "_receive"
  }

  function FlagOf(f: Flags, toggle: Switch): bool {
    match toggle
    case AssistSwitch => f.assist
    case NotifySwitch => f.notify
    case WhatsAppSwitch => f.whatsApp
    case MessengerSwitch => f.messenger
  }

  function PersistKey(toggle: Switch): string {
    match toggle
    case AssistSwitch => AssistKey
    case NotifySwitch => NotifyKey
    case WhatsAppSwitch => WhatsAppKey
    case MessengerSwitch => MessengerKey
  }

  /** The sender is on the greeted list of the notification's channel. */
  predicate Greeted(s: State, pkg: string, sender: string) {
    || (pkg == WhatsAppPackage && sender in s.waGreeted)
    || (pkg == MessengerPackage && sender in s.fbGreeted)
  }

  /** The channel's own switch is on. */
  predicate ChannelOn(f: Flags, pkg: string) {
    || (pkg == WhatsAppPackage && f.whatsApp)
    || (pkg == MessengerPackage && f.messenger)
  }

  function CannedFor(canned: Canned, pkg: string): string {
    if pkg == WhatsAppPackage then canned.whatsApp else canned.messenger
  }

  /** `text` greets the sender by the first word of their name, then says `greeting`. */
  ghost predicate IsGreeting(text: string, sender: string, greeting: string) {
    exists first :: IsFirstWord(first, sender) && text == "Hey " + first + ", " + greeting
  }

  /**
    The text written into every reply slot: the explicit message verbatim, or
    else a greeting built from the sender's first word and the channel's canned
    message. Building the greeting fails when the sender is blank.
   */
  function ReplyText(canned: Canned, sender: string, pkg: string, message: Option<string>): (r: Result<string>)
    ensures message.Some? ==> r == Ok(message.value)
    ensures message.None? ==> (r.Err? <==> |sender| > 0 && AllSpaces(sender))
    ensures r.Err? ==> r.fault == BlankSender(sender)
    ensures message.None? && r.Ok? ==> IsGreeting(r.value, sender, CannedFor(canned, pkg))
  {
    match message
    case Some(m) => Ok(m)
    case None =>
      match FirstToken(sender)
      case None => Err(BlankSender(sender))
      case Some(first) => Ok("Hey " + first + ", " + CannedFor(canned, pkg))
  }

  /** The loop over the remote inputs: one fill per slot, in order, all with the same text. */
  function FillAll(keys: seq<InputKey>, text: string): (fills: seq<Fill>)
    ensures |fills| == |keys|
    ensures forall i :: 0 <= i < |keys| ==> fills[i].key == keys[i] && fills[i].text == text
  {
    if keys == [] then [] else [Fill(keys[0], text)] + FillAll(keys[1..], text)
  }

  /**
    What a successful send changes. With forwarding off, the sender joins the
    greeted list of its channel; with forwarding on, the lists stay as they are
    and the registry entry `notifId` is retired (a null id retires nothing).
   */
  function Delivered(s: State, sender: string, pkg: string, notifId: Option<string>): (s': State)
    ensures s'.flags == s.flags && s'.connected == s.connected
    ensures s'.phone == s.phone && s'.shared == s.shared
    ensures !s.flags.notify ==> s'.registry == s.registry
    ensures !s.flags.notify && pkg == WhatsAppPackage ==>
      s'.waGreeted == s.waGreeted + [sender] && s'.fbGreeted == s.fbGreeted
    ensures !s.flags.notify && pkg == MessengerPackage ==>
      s'.fbGreeted == s.fbGreeted + [sender] && s'.waGreeted == s.waGreeted
    ensures !s.flags.notify && !Supported(pkg) ==> s' == s
    ensures s.flags.notify ==> s'.waGreeted == s.waGreeted && s'.fbGreeted == s.fbGreeted
    ensures s.flags.notify && notifId.None? ==> s'.registry == s.registry
    ensures s.flags.notify && notifId.Some? ==>
      && s'.registry.Keys == s.registry.Keys - {notifId.value}
      && forall k | k in s'.registry :: s'.registry[k] == s.registry[k]
  {
    var s1 :=
      if pkg == WhatsAppPackage && !s.flags.notify then s.(waGreeted := s.waGreeted + [sender])
      else if pkg == MessengerPackage && !s.flags.notify then s.(fbGreeted := s.fbGreeted + [sender])
      else s;
    if s.flags.notify && notifId.Some? then s1.(registry := s1.registry - {notifId.value}) else s1
  }

  /**
    `reply`: without both remote inputs and a pending intent nothing happens.
    Otherwise the slots of a WhatsApp or Messenger reply are filled with the
    reply text (another package's reply carries no fills), the target is
    invoked, and only a send that is not cancelled changes the state.
   */
  function Reply(s: State, canned: Canned, h: Handle, sender: string, pkg: string,
                 message: Option<string>, notifId: Option<string>, sent: bool): (r: Result<Transition>)
    ensures !h.Complete() ==> r == Ok(Transition(s, []))
    ensures r.Err? ==> && message.None? && |sender| > 0 && AllSpaces(sender)
                       && r.fault == BlankSender(sender)
    ensures r.Err? <==> && h.Complete() && Supported(pkg) && |h.inputs.value| > 0
                        && ReplyText(canned, sender, pkg, message).Err?
    ensures r.Ok? && h.Complete() ==>
      && |r.value.effects| == 1
      && r.value.effects[0].Inject?
      && r.value.effects[0].target == h.intent.value
      && |r.value.effects[0].fills| == (if Supported(pkg) then |h.inputs.value| else 0)
      && (forall i :: 0 <= i < |r.value.effects[0].fills| ==>
            && r.value.effects[0].fills[i].key == h.inputs.value[i]
            && ReplyText(canned, sender, pkg, message) == Ok(r.value.effects[0].fills[i].text))
      && r.value.state == (if sent then Delivered(s, sender, pkg, notifId) else s)
  {
    if !h.Complete() then
      Ok(Transition(s, []))
    else
      var keys := h.inputs.value;
      match (if Supported(pkg) && |keys| > 0 then ReplyText(canned, sender, pkg, message) else Ok(""))
      case Err(f) => Err(f)
      case Ok(text) =>
        var fills := if Supported(pkg) then FillAll(keys, text) else [];
        var after := if sent then Delivered(s, sender, pkg, notifId) else s;
        Ok(Transition(after, [Inject(h.intent.value, fills)]))
  }

  /**
    The summary-notification guard exactly as written: the disjunction of two
    negated `contains` checks.
   */
  predicate DigestFilter(text: string) {
    !Contains(text, DigestMany) || !Contains(text, DigestOne)
  }

  /**
    `handleConversationalBot`: a replyable action of the notification
    overwrites the shared handle (an earlier capture survives otherwise), and
    the text goes to the assistant unless the guard rejects it.
   */
  function Conversational(s: State, n: Notification): (t: Transition)
    ensures t.state == s.(shared := t.state.shared)
    ensures Captured(n.actions).inputs.Some? ==> t.state.shared == Captured(n.actions)
    ensures Captured(n.actions).inputs.None? ==> t.state.shared == s.shared
    ensures DigestFilter(n.text) ==> t.effects == [Ask(Query(n.text, n.title, n.pkg))]
    ensures !DigestFilter(n.text) ==> t.effects == []
  {
    var captured := Captured(n.actions);
    var s' := if captured.inputs.Some? then s.(shared := captured) else s;
    Transition(s', if DigestFilter(n.text) then [Ask(Query(n.text, n.title, n.pkg))] else [])
  }

  /** Sequencing: the effects of `t` come first, the state is the later one. */
  function Then(t: Transition, r: Result<Transition>): Result<Transition> {
    match r
    case Err(f) => Err(f)
    case Ok(u) => Ok(Transition(u.state, t.effects + u.effects))
  }

  /**
    `handleAssistBotNotifications`. A sender not yet greeted on the channel is
    greeted through the notification's last replyable action, if the channel's
    switch is on. A sender already greeted goes to the assistant instead; the
    reply that follows in the source then has no handle, so nothing is
    injected. Other packages are ignored.
   */
  function OnAssist(s: State, canned: Canned, n: Notification, sent: bool): (r: Result<Transition>)
    ensures !Supported(n.pkg) ==> r == Ok(Transition(s, []))
    ensures Supported(n.pkg) && Greeted(s, n.pkg, n.title) ==> r == Ok(Conversational(s, n))
    ensures Supported(n.pkg) && !Greeted(s, n.pkg, n.title) && !ChannelOn(s.flags, n.pkg) ==>
      r == Ok(Transition(s, []))
    ensures Supported(n.pkg) && !Greeted(s, n.pkg, n.title) && ChannelOn(s.flags, n.pkg) ==>
      r == Reply(s, canned, Captured(n.actions), n.title, n.pkg, None, None, sent)
  {
    if !Supported(n.pkg) then
      Ok(Transition(s, []))
    else
      var greeted := Greeted(s, n.pkg, n.title);
      var before := if greeted then Conversational(s, n) else Transition(s, []);
      var local := if greeted then NoHandle else Captured(n.actions);
      var sender := if greeted then "" else n.title;
      if ChannelOn(s.flags, n.pkg) then
        var replied := Reply(before.state, canned, local, sender, n.pkg, None, None, sent);
        assert greeted ==> before.effects + [] == before.effects;
        assert !greeted && replied.Ok? ==> [] + replied.value.effects == replied.value.effects;
        Then(before, replied)
      else
        Ok(before)
  }

  /** The JSON object describing a forwarded notification. */
  function Outbound(n: Notification): (p: Payload)
    ensures p.id == Lower(p.name) && p.name == n.title
    ensures p.message == n.text && p.appName == n.pkg
  {
    Payload(n.title, n.text, Lower(n.title), n.pkg)
  }

  /**
    `handleNotifyNotifications`: a WhatsApp or Messenger notification with at
    least one action is published on the send topic and its handle registered
    under the lower-cased sender, replacing any earlier entry; when the client
    is not connected nothing is published or registered and a new session is
    set up instead.
   */
  function Forward(s: State, n: Notification): (t: Transition)
    ensures !(Supported(n.pkg) && |n.actions| > 0) ==> t == Transition(s, [])
    ensures Supported(n.pkg) && |n.actions| > 0 && !s.connected ==> t == Transition(s, [Connect])
    ensures Supported(n.pkg) && |n.actions| > 0 && s.connected ==>
      && t.effects == [Publish(SendTopic(s.phone), Json(Outbound(n)))]
      && t.state == s.(registry := t.state.registry)
      && t.state.registry.Keys == s.registry.Keys + {Lower(n.title)}
      && t.state.registry[Lower(n.title)] == Captured(n.actions)
      && forall k | k in s.registry && k != Lower(n.title) :: t.state.registry[k] == s.registry[k]
  {
    var handle := Captured(n.actions);
    if |n.actions| > 0 && Supported(n.pkg) then
      if s.connected then
        Transition(s.(registry := s.registry[Lower(n.title) := handle]),
                   [Publish(SendTopic(s.phone), Json(Outbound(n)))])
      else
        Transition(s, [Connect])
    else
      Transition(s, [])
  }

  /** `onNotificationPosted`: the assistant takes precedence over forwarding. */
  function OnPosted(s: State, canned: Canned, n: Notification, sent: bool): (r: Result<Transition>)
    ensures s.flags.assist ==> r == OnAssist(s, canned, n, sent)
    ensures !s.flags.assist && s.flags.notify ==> r == Ok(Forward(s, n))
    ensures !s.flags.assist && !s.flags.notify ==> r == Ok(Transition(s, []))
  {
    if s.flags.assist then OnAssist(s, canned, n, sent)
    else if s.flags.notify then Ok(Forward(s, n))
    else Ok(Transition(s, []))
  }

  /**
    `onNotificationRemoved`: with forwarding on, a WhatsApp or Messenger
    removal publishes the lower-cased sender on the dismissal topic; a publish
    without a connection fails and is dropped.
   */
  function OnRemoved(s: State, n: Notification): (t: Transition)
    ensures t.state == s
    ensures s.flags.notify && Supported(n.pkg) && s.connected ==>
      t.effects == [Publish(DismissTopic, Raw(Lower(n.title)))]
    ensures !(s.flags.notify && Supported(n.pkg) && s.connected) ==> t.effects == []
  {
    if s.flags.notify && Supported(n.pkg) && s.connected then
      Transition(s, [Publish(DismissTopic, Raw(Lower(n.title)))])
    else
      Transition(s, [])
  }

  /**
    `EnableToggleReceiver.onReceive`: the switch becomes `extra == "1"` and is
    persisted; turning a channel off forgets who was greeted on it; turning
    forwarding on or off opens or closes the broker session. Opening one
    installs a new client, which is not connected until it reports so.
   */
  function OnToggle(s: State, toggle: Switch, extra: string): (t: Transition)
    ensures FlagOf(t.state.flags, toggle) == (extra == "1")
    ensures forall other :: other != toggle ==> FlagOf(t.state.flags, other) == FlagOf(s.flags, other)
    ensures t.state.waGreeted == (if toggle == WhatsAppSwitch && extra != "1" then [] else s.waGreeted)
    ensures t.state.fbGreeted == (if toggle == MessengerSwitch && extra != "1" then [] else s.fbGreeted)
    ensures t.state.registry == s.registry
    ensures t.state.connected == (if toggle == NotifySwitch && extra == "1" then false else s.connected)
    ensures t.state.phone == s.phone && t.state.shared == s.shared
    ensures t.effects == [Persist(PersistKey(toggle), extra == "1")]
                         + (if toggle != NotifySwitch then [] else if extra == "1" then [Connect] else [Disconnect])
  {
    var on := extra == "1";
    match toggle
    case AssistSwitch =>
      Transition(s.(flags := s.flags.(assist := on)), [Persist(AssistKey, on)])
    case NotifySwitch =>
      Transition(s.(flags := s.flags.(notify := on), connected := if on then false else s.connected),
                 [Persist(NotifyKey, on), if on then Connect else Disconnect])
    case WhatsAppSwitch =>
      Transition(s.(flags := s.flags.(whatsApp := on), waGreeted := if on then s.waGreeted else []),
                 [Persist(WhatsAppKey, on)])
    case MessengerSwitch =>
      Transition(s.(flags := s.flags.(messenger := on), fbGreeted := if on then s.fbGreeted else []),
                 [Persist(MessengerKey, on)])
  }

  /**
    `onListenerConnected`: the switches and the device number (without plus
    signs) are read from the preferences, and a session is set up when
    forwarding is on, replacing the client by an unconnected one. The greeted
    lists and the registry are kept.
   */
  function OnListenerConnected(s: State, stored: Stored): (t: Transition)
    ensures t.state.flags == Flags(stored.assist, stored.notify, stored.whatsApp, stored.messenger)
    ensures t.state.phone == StripPlus(stored.phone)
    // The next two follow from the line above; they spell out for a reader what the stored number becomes.
    ensures '+' !in t.state.phone
    ensures forall c | c != '+' :: multiset(t.state.phone)[c] == multiset(stored.phone)[c]
    ensures t.state.connected == (if stored.notify then false else s.connected)
    ensures t.state == s.(flags := t.state.flags, phone := t.state.phone, connected := t.state.connected)
    ensures t.effects == (if stored.notify then [Connect] else [])
  {
    StripPlusCounts(stored.phone);
    var s' := s.(flags := Flags(stored.assist, stored.notify, stored.whatsApp, stored.messenger),
                 phone := StripPlus(stored.phone),
                 connected := if stored.notify then false else s.connected);
    Transition(s', if stored.notify then [Connect] else [])
  }

  /** `onListenerDisconnected`: both greeted lists are emptied and the session closed. */
  function OnListenerDisconnected(s: State): (t: Transition)
    ensures t.state.waGreeted == [] && t.state.fbGreeted == []
    ensures t.state == s.(waGreeted := [], fbGreeted := [])
    ensures t.effects == [Disconnect]
  {
    Transition(s.(waGreeted := [], fbGreeted := []), [Disconnect])
  }

  /**
    `messageArrived`: the payload's id selects the registered handle and its
    message is sent through it verbatim, retiring that id on success when
    forwarding is on. An id with no entry is a null dereference.
   */
  function OnInbound(s: State, canned: Canned, p: Payload, sent: bool): (r: Result<Transition>)
    ensures r.Err? <==> p.id !in s.registry
    ensures r.Err? ==> r.fault == UnknownConversation(p.id)
    ensures p.id in s.registry ==>
      r == Reply(s, canned, s.registry[p.id], p.name, p.appName, Some(p.message), Some(p.id), sent)
  {
    if p.id !in s.registry then
      Err(UnknownConversation(p.id))
    else
      Reply(s, canned, s.registry[p.id], p.name, p.appName, Some(p.message), Some(p.id), sent)
  }

  /**
    `onPostExecute`: an answer is sent through the shared handle as it stands
    when the answer arrives, with the sender (not lower-cased) as the id to
    retire. A failed request produces nothing.
   */
  function OnAnswer(s: State, canned: Canned, q: Query, speech: Option<string>, sent: bool): (r: Result<Transition>)
    ensures r.Ok?
    ensures speech.None? ==> r.value == Transition(s, [])
    ensures speech.Some? ==> r == Reply(s, canned, s.shared, q.sender, q.pkg, speech, Some(q.sender), sent)
  {
    if speech.None? then Ok(Transition(s, []))
    else Reply(s, canned, s.shared, q.sender, q.pkg, speech, Some(q.sender), sent)
  }

  /**
    One event. Faults come only from a reply to an unregistered id and from
    greeting a blank sender.
   */
  function Step(s: State, canned: Canned, e: Event): (r: Result<Transition>)
    ensures e.Inbound? ==> (r.Err? <==> e.payload.id !in s.registry)
    ensures r.Err? ==>
      || (e.Inbound? && e.payload.id !in s.registry)
      || (e.Posted? && s.flags.assist && |e.notification.title| > 0 && AllSpaces(e.notification.title))
  {
    match e
    case Posted(n, sent) => OnPosted(s, canned, n, sent)
    case Removed(n) => Ok(OnRemoved(s, n))
    case Toggled(toggle, extra) => Ok(OnToggle(s, toggle, extra))
    case ListenerConnected(stored) => Ok(OnListenerConnected(s, stored))
    case ListenerDisconnected => Ok(OnListenerDisconnected(s))
    case Inbound(p, sent) => OnInbound(s, canned, p, sent)
    case Answered(q, speech, sent) => OnAnswer(s, canned, q, speech, sent)
    case BrokerUp => Ok(Transition(s.(connected := true), [Subscribe(ReceiveTopic(s.phone))]))
    case BrokerLost => Ok(Transition(s.(connected := false), [Connect]))
    case BrokerClosed => Ok(Transition(s.(connected := false), []))
  }

  /** A sequence of events, effects concatenated; the first fault stops the run. */
  function Run(s: State, canned: Canned, events: seq<Event>): Result<Transition>
    decreases |events|
  {
    if events == [] then
      Ok(Transition(s, []))
    else
      match Step(s, canned, events[0])
      case Err(f) => Err(f)
      case Ok(t) => Then(t, Run(t.state, canned, events[1..]))
  }

}
