/** Properties of the listener that relate several calls or whole runs. */
module ListenerProperties {
  import opened Common
  import opened Strings
  import opened Notifications
  import opened Model
  import opened Listener

  predicate NoInject(effects: seq<Effect>) {
    forall i :: 0 <= i < |effects| ==> !effects[i].Inject?
  }

  /** No publish and no session set-up. */
  predicate BrokerSilent(effects: seq<Effect>) {
    forall i :: 0 <= i < |effects| ==> !effects[i].Publish? && !effects[i].Connect?
  }

  /** Neither a reply nor a question to the assistant. */
  predicate NoLocalReply(effects: seq<Effect>) {
    forall i :: 0 <= i < |effects| ==> !effects[i].Inject? && !effects[i].Ask?
  }

  // ---------------------------------------------------------------- routing

  /**
    Mode priority, observed through effects. With the assistant on, a posted
    notification never reaches the broker and never touches the registry,
    whatever the forwarding switch says. With only forwarding on, nothing is
    injected or asked and the greeted lists stay. With both off, nothing happens.
   */
  lemma ModePriority(s: State, canned: Canned, n: Notification, sent: bool)
    ensures var r := OnPosted(s, canned, n, sent);
      s.flags.assist && r.Ok? ==>
        && BrokerSilent(r.value.effects)
        && r.value.state.registry == s.registry
        && r.value.state.connected == s.connected
    ensures var r := OnPosted(s, canned, n, sent);
      !s.flags.assist && s.flags.notify ==>
        && r.Ok?
        && NoLocalReply(r.value.effects)
        && r.value.state.waGreeted == s.waGreeted && r.value.state.fbGreeted == s.fbGreeted
        && r.value.state.shared == s.shared
    ensures !s.flags.assist && !s.flags.notify ==> OnPosted(s, canned, n, sent) == Ok(Transition(s, []))
  {
  }

  /**
    A sender already on the channel's greeted list is never greeted again:
    nothing is injected, and only the shared handle may change.
   */
  lemma GreetedSenderNotGreetedAgain(s: State, canned: Canned, n: Notification, sent: bool)
    requires s.flags.assist && Supported(n.pkg) && Greeted(s, n.pkg, n.title)
    ensures var r := OnPosted(s, canned, n, sent);
      && r.Ok?
      && NoInject(r.value.effects)
      && r.value.state == s.(shared := r.value.state.shared)
      && r.value.effects == (if DigestFilter(n.text) then [Ask(Query(n.text, n.title, n.pkg))] else [])
  {
  }

  /**
    The first WhatsApp notification from a sender, with forwarding off, greets
    them through the last replyable action and records them; a second
    notification from the same sender then goes to the assistant and is not
    greeted.
   */
  lemma GreetThenConverse(s: State, canned: Canned, n: Notification, later: Notification, sent: bool)
    requires s.flags.assist && !s.flags.notify && s.flags.whatsApp
    requires n.pkg == WhatsAppPackage && n.title !in s.waGreeted
    requires Captured(n.actions).Complete() && |Captured(n.actions).inputs.value| > 0
    requires FirstToken(n.title).Some?
    requires later.pkg == n.pkg && later.title == n.title
    ensures var r := OnPosted(s, canned, n, true);
      && r.Ok?
      && r.value.effects == [Inject(Captured(n.actions).intent.value,
                                    FillAll(Captured(n.actions).inputs.value,
                                            "Hey " + FirstToken(n.title).value + ", " + canned.whatsApp))]
      && r.value.state.waGreeted == s.waGreeted + [n.title]
      && var r2 := OnPosted(r.value.state, canned, later, sent);
         r2.Ok? && NoInject(r2.value.effects)
  {
  }

  /** A worked example: "Alice Smith" is greeted as Alice, followed by the canned message. */
  lemma GreetingExample(canned: Canned, sender: string)
    requires sender == "Alice Smith"
    ensures ReplyText(canned, sender, WhatsAppPackage, None) == Ok("Hey Alice, " + canned.whatsApp)
  {
    AliceFirstWord(sender);
    assert "Hey " + "Alice" + ", " == "Hey Alice, ";
  }

  /** Java's `split(" ")[0]` of "Alice Smith". */
  lemma AliceFirstWord(sender: string)
    requires sender == "Alice Smith"
    ensures FirstToken(sender) == Some("Alice")
  {
    assert sender[0] != ' ';
    assert sender[..5] == "Alice" && sender[5] == ' ';
    FirstWordUnique(FirstToken(sender).value, "Alice", sender);
  }

  // ---------------------------------------------------------------- forwarding

  /**
    Forwarding twice for the same conversation keeps a single entry, holding
    the handle of the later notification.
   */
  lemma ForwardOverwrites(s: State, n1: Notification, n2: Notification)
    requires s.connected && Supported(n1.pkg) && Supported(n2.pkg)
    requires |n1.actions| > 0 && |n2.actions| > 0
    requires Lower(n1.title) == Lower(n2.title)
    ensures var t := Forward(Forward(s, n1).state, n2);
      && t.state.registry.Keys == s.registry.Keys + {Lower(n1.title)}
      && t.state.registry[Lower(n1.title)] == Captured(n2.actions)
  {
  }

  /**
    The round trip: a forwarded notification, answered by the peer with the
    same id, is replied to through exactly the handle captured for it, and its
    entry is retired when the send goes through. A cancelled send leaves the
    entry in place.
   */
  lemma ForwardThenInbound(s: State, canned: Canned, n: Notification, answer: string, sent: bool)
    requires !s.flags.assist && s.flags.notify && s.connected
    requires Supported(n.pkg) && |n.actions| > 0 && Captured(n.actions).Complete()
    ensures var t := OnPosted(s, canned, n, sent);
      && t.Ok?
      && var p := Outbound(n).(message := answer);
         var r := OnInbound(t.value.state, canned, p, sent);
         && r.Ok?
         && r.value.effects == [Inject(Captured(n.actions).intent.value, FillAll(Captured(n.actions).inputs.value, answer))]
         && (sent ==> r.value.state.registry == s.registry - {Lower(n.title)})
         && (!sent ==> r.value.state == t.value.state)
  {
  }

  // ---------------------------------------------------------------- the assistant

  /**
    The guard in front of the assistant, as written, is equivalent to "the text
    does not contain `new messages`": its second disjunct adds nothing.
   */
  lemma DigestFilterIsPluralCheck(text: string)
    ensures DigestFilter(text) <==> !Contains(text, DigestMany)
  {
    if Contains(text, DigestMany) {
      ContainsPrefix(text, DigestMany, 11);
      assert DigestMany[..11] == DigestOne;
    }
  }

  /** So a singular summary reaches the assistant ... */
  lemma SingularDigestPasses()
    ensures DigestFilter("1 new message")
  {
    var text := "1 new message";
    DigestFilterIsPluralCheck(text);
    assert !OccursAt(text, DigestMany, 0) by { assert text[0..12][0] == '1'; }
    assert !OccursAt(text, DigestMany, 1) by { assert text[1..13][0] == ' '; }
  }

  /** ... while a plural one does not. */
  lemma PluralDigestBlocked()
    ensures !DigestFilter("3 new messages")
  {
  }

  /**
    An answer goes wherever the shared handle points when it arrives, whatever
    question it answers: a later notification with a replyable action,
    handled before the answer, captures the answer for its own conversation.
   */
  lemma LaterCaptureRedirectsAnswer(s: State, canned: Canned, n1: Notification, n2: Notification,
                                     speech: string, sent: bool)
    requires Captured(n2.actions).Complete()
    ensures var s2 := Conversational(Conversational(s, n1).state, n2).state;
      var r := OnAnswer(s2, canned, Query(n1.text, n1.title, n1.pkg), Some(speech), sent);
      && r.Ok?
      && |r.value.effects| == 1
      && r.value.effects[0] == Inject(Captured(n2.actions).intent.value, r.value.effects[0].fills)
  {
  }

  /**
    A notification with no replyable action leaves the earlier capture in
    place, so its answer is sent through that earlier conversation's target.
   */
  lemma StaleCaptureReceivesAnswer(s: State, canned: Canned, n: Notification, speech: string, sent: bool)
    requires s.shared.Complete()
    requires forall j :: 0 <= j < |n.actions| ==> !Replyable(n.actions[j])
    ensures var s1 := Conversational(s, n).state;
      var r := OnAnswer(s1, canned, Query(n.text, n.title, n.pkg), Some(speech), sent);
      && r.Ok?
      && |r.value.effects| == 1
      && r.value.effects[0].target == s.shared.intent.value
  {
  }

  // ---------------------------------------------------------------- reachable states

  /** Every registry key is lower case and the device number has no plus sign. */
  ghost predicate Valid(s: State) {
    && (forall k | k in s.registry :: Lower(k) == k)
    && '+' !in s.phone
  }

  lemma InitValid()
    ensures Valid(Init)
  {
  }

  /** Every event keeps the registry keyed by lower-case ids and the number free of plus signs. */
  lemma StepKeepsValid(s: State, canned: Canned, e: Event)
    requires Valid(s)
    requires Step(s, canned, e).Ok?
    ensures Valid(Step(s, canned, e).value.state)
  {
  }

  /** Validity holds after any run of events that does not fault. */
  lemma {:induction false} RunKeepsValid(s: State, canned: Canned, events: seq<Event>)
    requires Valid(s)
    requires Run(s, canned, events).Ok?
    ensures Valid(Run(s, canned, events).value.state)
    decreases |events|
  {
    if events != [] {
      var t := Step(s, canned, events[0]).value;
      StepKeepsValid(s, canned, events[0]);
      RunKeepsValid(t.state, canned, events[1..]);
    }
  }

  /** In any reachable state, a reply whose id has an upper-case letter finds no entry. */
  lemma MixedCaseIdFaults(s: State, canned: Canned, p: Payload, sent: bool)
    requires Valid(s)
    requires Lower(p.id) != p.id
    ensures OnInbound(s, canned, p, sent) == Err(UnknownConversation(p.id))
  {
  }

  /**
    An assistant answer retires the registry entry named by the raw sender, but
    entries are keyed by the lower-cased sender: for a sender with an upper-case
    letter the registry is left as it was.
   */
  lemma AnswerKeepsRegistryForMixedCaseSender(s: State, canned: Canned, q: Query, speech: Option<string>, sent: bool)
    requires Valid(s)
    requires Lower(q.sender) != q.sender
    ensures OnAnswer(s, canned, q, speech, sent).value.state.registry == s.registry
  {
  }

  // ---------------------------------------------------------------- switches and dismissal

  /**
    Turning a channel off and on again forgets who was greeted on it, so every
    sender is greeted afresh; the other channel and the registry are untouched.
   */
  lemma ChannelOffOnForgetsGreetings(s: State, sender: string)
    ensures var s2 := OnToggle(OnToggle(s, WhatsAppSwitch, "0").state, WhatsAppSwitch, "1").state;
      && s2.flags == s.flags.(whatsApp := true)
      && !Greeted(s2, WhatsAppPackage, sender)
      && s2.fbGreeted == s.fbGreeted
      && s2.registry == s.registry
  {
  }

  /** A listener disconnect forgets every greeting on both channels. */
  lemma DisconnectForgetsGreetings(s: State, pkg: string, sender: string)
    ensures !Greeted(OnListenerDisconnected(s).state, pkg, sender)
  {
  }

  /**
    The dismissal signal for a notification names the same conversation id the
    forwarded payload carried and the registry was keyed by.
   */
  lemma DismissalNamesForwardedConversation(s: State, n: Notification)
    requires s.flags.notify && s.connected && Supported(n.pkg) && |n.actions| > 0
    ensures OnRemoved(s, n).effects == [Publish(DismissTopic, Raw(Outbound(n).id))]
    ensures Outbound(n).id in Forward(s, n).state.registry
  {
  }

  // ---------------------------------------------------------------- sessions

  predicate NoPublish(effects: seq<Effect>) {
    forall i :: 0 <= i < |effects| ==> !effects[i].Publish?
  }

  /** Every event that sets up a session leaves the listener unconnected. */
  lemma ConnectLeavesUnconnected(s: State, canned: Canned, e: Event)
    requires Step(s, canned, e).Ok? && Connect in Step(s, canned, e).value.effects
    ensures !Step(s, canned, e).value.state.connected
  {
  }

  /**
    While unconnected, no event other than the broker reporting up publishes,
    connects the listener or registers a conversation.
   */
  lemma UnconnectedStepIsSilent(s: State, canned: Canned, e: Event)
    requires !s.connected && !e.BrokerUp?
    requires Step(s, canned, e).Ok?
    ensures var t := Step(s, canned, e).value;
      && !t.state.connected
      && NoPublish(t.effects)
      && t.state.registry.Keys <= s.registry.Keys
  {
  }

  /**
    From an unconnected state, a run with no `BrokerUp` publishes nothing and
    registers nothing: a conversation is only stored once the session is up.
   */
  lemma {:induction false} SilentUntilBrokerUp(s: State, canned: Canned, events: seq<Event>)
    requires !s.connected
    requires forall i :: 0 <= i < |events| ==> !events[i].BrokerUp?
    requires Run(s, canned, events).Ok?
    ensures var t := Run(s, canned, events).value;
      && !t.state.connected
      && NoPublish(t.effects)
      && t.state.registry.Keys <= s.registry.Keys
    decreases |events|
  {
    if events != [] {
      var t := Step(s, canned, events[0]).value;
      UnconnectedStepIsSilent(s, canned, events[0]);
      SilentUntilBrokerUp(t.state, canned, events[1..]);
      var rest := Run(t.state, canned, events[1..]).value;
      assert Run(s, canned, events).value.effects == t.effects + rest.effects;
    }
  }

  /**
    Switching forwarding on again while connected replaces the client: a
    notification that follows is not published or registered but sets up
    another session.
   */
  lemma ReToggleThenPostSetsUpAgain(s: State, canned: Canned, n: Notification, sent: bool)
    requires !s.flags.assist && s.flags.notify && s.connected
    requires Supported(n.pkg) && |n.actions| > 0
    ensures var t := OnToggle(s, NotifySwitch, "1");
      && !t.state.connected
      && OnPosted(t.state, canned, n, sent) == Ok(Transition(t.state, [Connect]))
  {
  }

  /** The device number in topic names keeps the stored digits in order: "+12" becomes "12". */
  lemma StripPlusExample(stored: string)
    requires stored == "+12"
    ensures StripPlus(stored) == "12"
  {
    assert stored == ['+'] + "12";
    StripPlusAppend(['+'], "12");
    StripPlusChar('+');
  }

  // ---------------------------------------------------------------- topics and session

  /** Send topics, receive topics and the dismissal topic never coincide, and each family tells devices apart. */
  lemma TopicsDistinct(p: string, q: string)
    ensures SendTopic(p) != ReceiveTopic(q)
    ensures SendTopic(p) != DismissTopic && ReceiveTopic(p) != DismissTopic
    ensures SendTopic(p) == SendTopic(q) ==> p == q
    ensures ReceiveTopic(p) == ReceiveTopic(q) ==> p == q
  {
    var sp, rq := SendTopic(p), ReceiveTopic(q);
    assert sp[|sp| - 1] == 'd' && rq[|rq| - 1] == 'e';
    assert DismissTopic[|DismissTopic| - 1] == 'n';
    assert ReceiveTopic(p)[|ReceiveTopic(p)| - 1] == 'e';
    if SendTopic(p) == SendTopic(q) {
      assert p == SendTopic(p)[..|p|];
      assert q == SendTopic(q)[..|q|];
    }
    if ReceiveTopic(p) == ReceiveTopic(q) {
      assert p == ReceiveTopic(p)[..|p|];
      assert q == ReceiveTopic(q)[..|q|];
    }
  }

  /** After the connection is lost, a new session is set up and, once up, subscribes to the receive topic again. */
  lemma LostThenUpResubscribes(s: State, canned: Canned)
    ensures Run(s, canned, [BrokerLost, BrokerUp])
            == Ok(Transition(s.(connected := true), [Connect, Subscribe(ReceiveTopic(s.phone))]))
  {
    var t1 := Transition(s.(connected := false), [Connect]);
    var t2 := Transition(s.(connected := true), [Subscribe(ReceiveTopic(s.phone))]);
    assert Step(s, canned, BrokerLost) == Ok(t1);
    assert Step(t1.state, canned, BrokerUp) == Ok(t2);
    assert Run(t2.state, canned, []) == Ok(Transition(t2.state, []));
    assert [BrokerUp][1..] == [];
    assert Run(t1.state, canned, [BrokerUp]) == Ok(Transition(t2.state, t2.effects + []));
    assert t2.effects + [] == t2.effects;
    assert [BrokerLost, BrokerUp][1..] == [BrokerUp];
    assert t1.effects + t2.effects == [Connect, Subscribe(ReceiveTopic(s.phone))];
  }


  /**
    A greeting through an action with no reply slots never splits the sender's
    name, so even a blank sender's intent is sent, with nothing filled in.
   */
  lemma ZeroSlotGreetingSends(s: State, canned: Canned, target: Target, sender: string, sent: bool)
    requires AllSpaces(sender) && |sender| > 0
    ensures Reply(s, canned, Handle(Some([]), Some(target)), sender, WhatsAppPackage, None, None, sent)
            == Ok(Transition(if sent then Delivered(s, sender, WhatsAppPackage, None) else s, [Inject(target, [])]))
  {
  }

}
