/** The agent's objects, which change in place, proved against the machine's queues and record. */
module Agents {
  import opened AgentEvents
  import opened AgentLoop
  import opened Text

  class PendingMessageQueue {
    var messages: seq<Message>
    var mode: Mode

    /** The queue of the machine that this object is. */
    function Model(): Queue
      reads this
    {
      Queue(messages, mode)
    }

    constructor (mode: Mode)
      ensures Model() == Queue([], mode)
    {
      messages := [];
      this.mode := mode;
    }

    method Enqueue(message: Message)
      modifies this
      ensures Model() == old(Model()).Add(message)
    {
      messages := messages + [message];
    }

    predicate HasItems()
      reads this
    {
      |messages| > 0
    }

    /** What is drained and what stays make up what there was; one message at most unless the mode is `All`. */
    method Drain() returns (drained: seq<Message>)
      modifies this
      ensures drained == old(Model()).Head() && Model() == old(Model()).Rest()
      ensures drained + messages == old(messages)
      ensures drained == [] <==> !old(HasItems())
      ensures mode == OneAtATime ==> |drained| <= 1
      ensures mode == All ==> !HasItems()
    {
      if mode == All {
        drained := messages;
        messages := [];
      } else if messages == [] {
        drained := [];
      } else {
        drained := [messages[0]];
        messages := messages[1..];
      }
    }

    method Clear()
      modifies this
      ensures Model() == old(Model()).(items := [])
    {
      messages := [];
    }
  }

  /** What `continue` does: refuse, go on from the conversation, or deliver prompts. */
  datatype Continuation = NothingToContinue | CannotContinue | Resume | Deliver(prompts: seq<Message>, skipPoll: bool)

  class AgentObject {
    var messages: seq<Message>
    var streamingMessage: Option<Message>
    var pendingToolCalls: set<string>
    var isStreaming: bool
    const steeringQueue: PendingMessageQueue
    const followUpQueue: PendingMessageQueue

    predicate Valid()
      reads this
    {
      steeringQueue != followUpQueue
    }

    function Model(): Agent
      reads this
    {
      Agent(messages, streamingMessage, pendingToolCalls)
    }

    constructor (messages: seq<Message>, steeringMode: Mode, followUpMode: Mode)
      ensures Valid() && fresh(steeringQueue) && fresh(followUpQueue)
      ensures Model() == Agent(messages, None, {}) && !isStreaming
      ensures steeringQueue.Model() == Queue([], steeringMode) && followUpQueue.Model() == Queue([], followUpMode)
    {
      this.messages := messages;
      streamingMessage := None;
      pendingToolCalls := {};
      isStreaming := false;
      steeringQueue := new PendingMessageQueue(steeringMode);
      followUpQueue := new PendingMessageQueue(followUpMode);
    }

    method BeginRun()
      requires Valid() && !isStreaming
      modifies this
      ensures Valid() && isStreaming && Model() == old(Model()).(streaming := None)
    {
      isStreaming := true;
      streamingMessage := None;
    }

    method ProcessEvent(event: Event)
      requires Valid() && isStreaming
      modifies this
      ensures Valid() && isStreaming && Model() == Reduce(old(Model()), event)
    {
      match event {
        case MessageStart(message) => streamingMessage := Some(message);
        case MessageUpdate(message) => streamingMessage := Some(message);
        case MessageEnd(message) =>
          streamingMessage := None;
          messages := messages + [message];
        case ToolStart(_, id) => pendingToolCalls := pendingToolCalls + {id};
        case ToolEnd(_, id, _) => pendingToolCalls := pendingToolCalls - {id};
        case AgentEnd(_) => streamingMessage := None;
        case _ =>
      }
    }

    method FinishRun()
      requires Valid()
      modifies this
      ensures Valid() && !isStreaming && Model() == old(Model()).(streaming := None, pendingToolCalls := {})
    {
      isStreaming := false;
      streamingMessage := None;
      pendingToolCalls := {};
    }

    /** After a reply the queues are drained, steering first; what is taken becomes the prompts of a run. */
    method Continue() returns (c: Continuation)
      requires Valid() && !isStreaming
      modifies steeringQueue, followUpQueue
      ensures old(messages) == [] <==> c.NothingToContinue?
      ensures c.Resume? <==> old(messages) != [] && !old(messages[|messages| - 1].Assistant?)
      ensures c.Deliver? ==> c.prompts != []
      ensures !c.Deliver? ==>
        && steeringQueue.Model() == old(steeringQueue.Model())
        && followUpQueue.Model() == old(followUpQueue.Model())
      ensures c.Deliver? && c.skipPoll ==>
        && c.prompts == old(steeringQueue.Model()).Head() && steeringQueue.Model() == old(steeringQueue.Model()).Rest()
        && followUpQueue.Model() == old(followUpQueue.Model())
      ensures c.Deliver? && !c.skipPoll ==>
        && !old(steeringQueue.HasItems()) && steeringQueue.Model() == old(steeringQueue.Model())
        && c.prompts == old(followUpQueue.Model()).Head() && followUpQueue.Model() == old(followUpQueue.Model()).Rest()
      ensures c.CannotContinue? ==> !steeringQueue.HasItems() && !followUpQueue.HasItems()
    {
      if messages == [] {
        return NothingToContinue;
      }
      if messages[|messages| - 1].Assistant? {
        var queuedSteering := steeringQueue.Drain();
        if |queuedSteering| > 0 {
          return Deliver(queuedSteering, true);
        }
        var queuedFollowUps := followUpQueue.Drain();
        if |queuedFollowUps| > 0 {
          return Deliver(queuedFollowUps, false);
        }
        return CannotContinue;
      }
      return Resume;
    }
  }
}
