/** The closed enumerations of the notification app and its status machine. */
module Enums {

  datatype Channel = Email | Sms | Whatsapp | Push

  datatype Category = Transactional | Security | Reminder | System | Marketing

  datatype Status =
    | Pending
    | Dispatching
    | Queued
    | Processing
    | Retry
    | Sent
    | Failed
    | Cancelled

  /** The stored text of a channel; it is part of every idempotency key. */
  function ChannelText(c: Channel): string {
    match c
    case Email => "email"
    case Sms => "sms"
    case Whatsapp => "whatsapp"
    case Push => "push"
  }

  function ValidTransitions(s: Status): set<Status> {
    match s
    case Pending => {Dispatching, Cancelled}
    case Dispatching => {Queued, Pending, Retry, Cancelled}
    case Queued => {Processing, Pending, Cancelled}
    case Processing => {Sent, Retry, Failed}
    case Retry => {Dispatching, Pending, Failed, Cancelled}
    case Sent => {}
    case Failed => {Pending}
    case Cancelled => {}
  }

  /** What `assert_transition` accepts. */
  predicate CanTransition(from: Status, to: Status) {
    to in ValidTransitions(from)
  }

  /** Statuses from which a worker may claim a row. */
  predicate Claimable(s: Status) {
    s == Queued || s == Pending || s == Retry
  }

  /** Statuses the `cancel` action accepts. */
  predicate Cancellable(s: Status) {
    s == Pending || s == Retry || s == Dispatching || s == Queued
  }

  /** Statuses the `retry` action accepts: not only FAILED, but every status the table lets go back to PENDING. */
  predicate Retryable(s: Status) {
    s == Failed || s == Dispatching || s == Queued || s == Retry
  }

  lemma WhoCanGoPending(s: Status)
    ensures CanTransition(s, Pending) <==> Retryable(s)
  {
  }

  /** The same table read the other way: what each status can be reached from. */
  lemma TransitionsInto(from: Status, to: Status)
    ensures CanTransition(from, to) <==>
            match to
            case Pending => from == Dispatching || from == Queued || from == Retry || from == Failed
            case Dispatching => from == Pending || from == Retry
            case Queued => from == Dispatching
            case Processing => from == Queued
            case Retry => from == Dispatching || from == Processing
            case Sent => from == Processing
            case Failed => from == Processing || from == Retry
            case Cancelled => from == Pending || from == Dispatching || from == Queued || from == Retry
  {
  }

  /** Statuses only a finished delivery writes. */
  predicate Final(s: Status) {
    s == Sent || s == Failed
  }
}
