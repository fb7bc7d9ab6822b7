/** `NotificationBus`, the agent that relays notifications from any component
    to every listener, and `NotificationSender`, the helpers with which a
    component posts a notification to it through its dispatcher. */
module Notifications {
  import opened Subscribers

  datatype NotificationLevel = Success | Info | Warning | Error

  datatype Notification = Notification(text: string, level: NotificationLevel)

  datatype NotificationRequest = New(notification: Notification)

  /** A component's `Dispatcher<NotificationBus>`: the requests it sent, in order. */
  class NotificationDispatcher {
    var sent: seq<NotificationRequest>

    constructor ()
      ensures sent == []
    {
      sent := [];
    }

    method NotifySuccess(text: string)
      modifies this
      ensures sent == old(sent) + [New(Notification(text, Success))]
    {
      sent := sent + [New(Notification(text, Success))];
    }

    method NotifyInfo(text: string)
      modifies this
      ensures sent == old(sent) + [New(Notification(text, Info))]
    {
      sent := sent + [New(Notification(text, Info))];
    }

    method NotifyWarn(text: string)
      modifies this
      ensures sent == old(sent) + [New(Notification(text, Warning))]
    {
      sent := sent + [New(Notification(text, Warning))];
    }

    method NotifyError(text: string)
      modifies this
      ensures sent == old(sent) + [New(Notification(text, Error))]
    {
      sent := sent + [New(Notification(text, Error))];
    }
  }

  class NotificationBus {
    var subscribers: seq<HandlerId>
    /** `link.respond(subscriber, request)`, in call order. */
    var responses: seq<(HandlerId, NotificationRequest)>

    /** Listeners are registered at most once. */
    predicate Valid()
      reads this
    {
      NoDuplicates(subscribers)
    }

    constructor ()
      ensures Valid()
      ensures subscribers == [] && responses == []
    {
      subscribers, responses := [], [];
    }

    /** `handle_input`: the request is passed on, unchanged, to every
        listener, whoever sent it; each listener gets it exactly once. */
    method HandleInput(request: NotificationRequest, sender: HandlerId)
      requires Valid()
      modifies this`responses
      ensures responses == old(responses) + Deliveries(subscribers, request)
      ensures forall id :: CountTo(responses[|old(responses)|..], id) == if id in subscribers then 1 else 0
    {
      responses := Broadcast(subscribers, request, responses);
      forall id ensures CountTo(responses[|old(responses)|..], id) == if id in subscribers then 1 else 0 {
        assert responses[|old(responses)|..] == Deliveries(subscribers, request);
        DeliveredOnce(subscribers, request, id);
      }
    }

    /** `connected`: register the listener unless it already is. */
    method Connected(id: HandlerId)
      requires Valid()
      modifies this`subscribers
      ensures Valid()
      ensures subscribers == AddIfAbsent(old(subscribers), id)
    {
      AddIfAbsentNoDuplicates(subscribers, id);
      if id !in subscribers {
        subscribers := subscribers + [id];
      }
    }

    /** `disconnected`: the listener is no longer registered. */
    method Disconnected(id: HandlerId)
      requires Valid()
      modifies this`subscribers
      ensures Valid()
      ensures subscribers == Remove(old(subscribers), id)
      ensures id !in subscribers
    {
      RemoveNoDuplicates(subscribers, id);
      match Position(subscribers, id) {
        case Some(pos) => subscribers := SwapRemove(subscribers, pos);
        case None =>
      }
    }
  }
}
