/** `StateMgr`, the agent meant to hold the shared client state. As written
    it registers nobody: `connected` only logs, so its subscriber list stays
    empty, every request is answered to no one, and the state it holds is
    never read. */
module StateMgr {
  import opened Subscribers

  datatype State = State(wsServerAddr: string)

  datatype StateRequest = Get

  datatype StateResponse = Nope

  class StateMgr {
    var subscribers: seq<HandlerId>
    var state: State
    /** `link.respond(subscriber, response)`, in call order. */
    var responses: seq<(HandlerId, StateResponse)>

    /** Nobody is ever registered. */
    predicate Valid()
      reads this
    {
      subscribers == []
    }

    /** `create`: no subscriber and the default state. */
    constructor ()
      ensures Valid()
      ensures state == State("") && responses == []
    {
      subscribers, state, responses := [], State(""), [];
    }

    /** `handle_input`: answer `Nope` to every subscriber, which is nobody. */
    method HandleInput(request: StateRequest, sender: HandlerId)
      requires Valid()
      modifies this`responses
      ensures responses == old(responses) + Deliveries(subscribers, Nope)
      ensures responses == old(responses)
    {
      responses := Broadcast(subscribers, Nope, responses);
    }

    /** `connected`: nothing is registered. */
    method Connected(id: HandlerId)
      requires Valid()
      ensures Valid()
      ensures id !in subscribers
    {
    }

    /** `disconnected`: swap-remove the id at its first position, if it is
        there; with nobody registered, nothing changes. */
    method Disconnected(id: HandlerId)
      requires Valid()
      modifies this`subscribers
      ensures Valid()
      ensures subscribers == Remove(old(subscribers), id)
      ensures id !in old(subscribers) ==> subscribers == old(subscribers)
    {
      subscribers := Remove(subscribers, id);
    }
  }
}
