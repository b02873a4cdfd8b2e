/** The socket events the broker emits, kept as an append-only log. */
module Events {

  /** One emitted event: the socket (room) it is addressed to, the event
      name and its payload. */
  datatype Event = Event(target: string, name: string, payload: string)

  const NOTIFICATION: string := "notification"
  const CHAT_REQUEST_ERROR: string := "chatRequestError"
  const GREETINGS: string := "greetings"
  const HELLO: string := "hello"

  /** Payload texts, spelt as the server spells them. */
  const NO_AGENT_TEXT: string := "No agent is avilable to chat right now."
  const WELCOME_TEXT: string := "Welcome to socket"
  const WANTS_TO_CHAT: string := " wants to chat with you"

  /** The error a customer receives when no agent can be asked. */
  function NoAgent(customer: string): Event {
    Event(customer, CHAT_REQUEST_ERROR, NO_AGENT_TEXT)
  }

  /** What `notify` emits: a 'notification' to `target` if that socket is
      live, nothing otherwise. */
  function Notification(target: string, live: set<string>, data: string): (r: seq<Event>)
    ensures |r| <= 1
    ensures r != [] <==> target in live
    ensures forall e :: e in r ==> e.target == target && e.name == NOTIFICATION && e.payload == data
  {
    if target in live then [Event(target, NOTIFICATION, data)] else []
  }

  /** `n` 'chatRequestError' events addressed to `customer`. */
  function Errors(customer: string, n: nat): (r: seq<Event>)
    ensures |r| == n
    ensures forall i :: 0 <= i < n ==> r[i] == NoAgent(customer)
  {
    if n == 0 then [] else Errors(customer, n - 1) + [NoAgent(customer)]
  }
}
