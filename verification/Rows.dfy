/** One stored notification, and one stored delivery attempt. */
module Rows {
  import opened Wrappers
  import opened Enums

  /** Rows are identified by their idempotency key, which is unique and never rewritten. */
  type Key = string

  type Time = real

  /** `None` and the empty string are the same "no address" to the program; "" stands for both. */
  datatype Recipient = Recipient(kind: string, key: string, email: string, phone: string)

  /** The address a channel uses: the email one for email, the phone for every other channel. */
  function Address(r: Recipient, ch: Channel): string {
    if ch == Email then r.email else r.phone
  }

  /** The snapshot taken when the row is inserted; nothing rewrites it afterwards. */
  datatype Notice = Notice(
    rule: string,
    channel: Channel,
    category: Category,
    priority: string,
    recipient: Recipient,
    identity: string,
    subject: string,
    body: string,
    fallbackOf: Option<Key>)

  datatype Row = Row(
    notice: Notice,
    scheduledAt: Time,
    status: Status,
    attempts: nat,
    maxAttempts: nat,
    dispatchingAt: Option<Time>,
    processingAt: Option<Time>,
    nextRetryAt: Option<Time>)

  /** The `success` column of an attempt: null, true or false. */
  datatype Mark = InProgress | Succeeded | Unsuccessful

  /** The attempt rows of one notification; a map, because (outbox, number) is unique. */
  type Log = map<nat, Mark>

  function WithMark(log: Log, number: nat, mark: Mark): Log {
    log[number := mark]
  }

  function NewRow(notice: Notice, scheduledAt: Time, maxAttempts: nat): Row {
    Row(notice, scheduledAt, Pending, 0, maxAttempts, None, None, None)
  }
}
