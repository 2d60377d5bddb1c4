/**
  A posted notification as the listener sees it, and the capture of the
  reply action the listener injects text into.
 */
module Notifications {
  import opened Common

  /** The result key of one reply-input slot (`RemoteInput.getResultKey`). */
  type InputKey = string

  /** An opaque reply target (`PendingIntent`), told apart by an identity. */
  datatype Target = Target(id: nat)

  /** A wearable action of a notification; `Missing` is a null entry of the action list. */
  datatype Action =
    | Missing
    | Action(inputs: Option<seq<InputKey>>, intent: Option<Target>)

  /** Package name, `EXTRA_TITLE` (the sender), `EXTRA_TEXT` and the wearable actions. */
  datatype Notification = Notification(pkg: string, title: string, text: string, actions: seq<Action>)

  /** The remote inputs and pending intent a reply is sent through; either may be null. */
  datatype Handle = Handle(inputs: Option<seq<InputKey>>, intent: Option<Target>) {
    /** A reply can only be sent when both parts are present. */
    predicate Complete() {
      inputs.Some? && intent.Some?
    }
  }

  const NoHandle: Handle := Handle(None, None)

  /** The capture loop takes an action when it is non-null and has remote inputs. */
  predicate Replyable(a: Action) {
    a.Action? && a.inputs.Some?
  }

  /** The index of the last replyable action, or -1 when there is none. */
  function LastReplyIndex(actions: seq<Action>): (k: int)
    ensures -1 <= k < |actions|
    ensures k >= 0 ==> Replyable(actions[k])
    ensures forall j :: k < j < |actions| ==> !Replyable(actions[j])
    decreases |actions|
  {
    if |actions| == 0 then -1
    else if Replyable(actions[|actions| - 1]) then |actions| - 1
    else LastReplyIndex(actions[..|actions| - 1])
  }

  /**
    The handle the capture loop leaves behind: each replyable action overwrites
    the inputs and intent, so the last one wins; with none, both stay null.
   */
  function Captured(actions: seq<Action>): Handle {
    var k := LastReplyIndex(actions);
    if k < 0 then NoHandle else Handle(actions[k].inputs, actions[k].intent)
  }

  /** The captured handle comes from the last replyable action, and is empty only when no action is replyable. */
  lemma CapturedIsLastReplyable(actions: seq<Action>)
    ensures Captured(actions).inputs.None? <==> forall j :: 0 <= j < |actions| ==> !Replyable(actions[j])
    ensures Captured(actions).inputs.None? ==> Captured(actions) == NoHandle
    ensures Captured(actions).inputs.Some? ==>
      exists k :: 0 <= k < |actions| && Replyable(actions[k])
        && Captured(actions) == Handle(actions[k].inputs, actions[k].intent)
        && (forall j :: k < j < |actions| ==> !Replyable(actions[j]))
  {
  }

}
