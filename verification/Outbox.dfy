/** The transactional outbox: message rows, the database updates of its tasks, and their safety. */
module Outbox {
  import opened Wrappers

  // ----- rows

  /** Time in seconds. */
  type Time = int

  type MessageId = nat

  datatype Kind =
    | WorkspaceInvitation
    | OwnerInvitation
    | InstallationAdminInvitation
    | PasswordReset
    | AutomationRun

  datatype Status = Queued | Processing | Sent | Failed

  datatype Message = Message(
    kind: Kind,
    secret: string,
    status: Status,
    attempts: nat,
    availableAt: Time,
    lockedAt: Option<Time>,
    sentAt: Option<Time>)

  /** How long a task may run, and after which age a lock counts as abandoned. */
  datatype Limits = Limits(taskLimit: nat, lockTimeout: nat)

  const MAX_ATTEMPTS: nat := 6

  const DEPLOYED: Limits := Limits(120, 15 * 60)

  const BATCH: nat := 500

  // ----- the database updates

  function NewMessage(kind: Kind, secret: string, now: Time): Message {
    Message(kind, secret, Queued, 0, now, None, None)
  }

  predicate Claimable(m: Message, now: Time, lockTimeout: nat) {
    && !m.kind.AutomationRun?
    && !m.status.Sent? && !m.status.Failed?
    && !(m.status.Processing? && m.lockedAt.Some? && m.lockedAt.value > now - lockTimeout)
  }

  function Claimed(m: Message, now: Time): Message {
    m.(status := Processing, lockedAt := Some(now), attempts := m.attempts + 1)
  }

  function Pow2(n: nat): nat { if n == 0 then 1 else 2 * Pow2(n - 1) }

  /** Seconds until the next attempt. */
  function Backoff(attempts: nat): nat {
    var delay := 60 * Pow2(if attempts == 0 then 0 else attempts - 1);
    if delay < 3600 then delay else 3600
  }

  /** The unconditional update after a failed send; `attempts` is what the worker claimed with. */
  function AfterFailure(m: Message, attempts: nat, now: Time): Message {
    m.(status := if attempts >= MAX_ATTEMPTS then Failed else Queued,
       availableAt := now + Backoff(attempts),
       lockedAt := None)
  }

  /** The unconditional update after a successful send. */
  function AfterSuccess(m: Message, now: Time): Message {
    m.(status := Sent, sentAt := Some(now), lockedAt := None, secret := "")
  }

  predicate Stale(m: Message, staleBefore: Time) {
    m.status.Processing? && m.lockedAt.Some? && m.lockedAt.value < staleBefore
  }

  /** The dispatcher returns abandoned messages to the queue. */
  function Requeue(messages: map<MessageId, Message>, staleBefore: Time): map<MessageId, Message> {
    map id | id in messages ::
      if Stale(messages[id], staleBefore)
      then messages[id].(status := Queued, lockedAt := None) else messages[id]
  }

  /** What the dispatcher hands out. */
  predicate Dispatchable(m: Message, now: Time) {
    m.status.Queued? && m.availableAt <= now && !m.kind.AutomationRun?
  }

  // ----- the tasks over the stored rows

  datatype ClaimResult = NoSuchMessage | Refused | Granted(message: Message)

  class Table {
    var messages: map<MessageId, Message>

    constructor ()
      ensures messages == map[]
    {
      messages := map[];
    }

    /** Claims a row unless another worker may hold it, it is done or it is not for delivery. */
    method Claim(id: MessageId, now: Time, lockTimeout: nat) returns (r: ClaimResult)
      modifies this
      ensures r == if id !in old(messages) then NoSuchMessage
                   else if Claimable(old(messages)[id], now, lockTimeout)
                   then Granted(Claimed(old(messages)[id], now))
                   else Refused
      ensures messages == if r.Granted? then old(messages)[id := r.message] else old(messages)
    {
      if id !in messages {
        return NoSuchMessage;
      }
      var m := messages[id];
      if m.kind.AutomationRun? {
        return Refused;
      }
      if m.status.Sent? || m.status.Failed? {
        return Refused;
      }
      if m.status.Processing? && m.lockedAt.Some? && m.lockedAt.value > now - lockTimeout {
        return Refused;
      }
      m := m.(status := Processing);
      m := m.(lockedAt := Some(now));
      m := m.(attempts := m.attempts + 1);
      messages := messages[id := m];
      r := Granted(m);
    }

    /**
     * What a worker does with a claimed row once the send has returned.  The update looks at
     * nothing but the key; the result says whether the task asks for a retry.
     */
    method Finish(id: MessageId, claimed: Message, sent: bool, now: Time) returns (retry: bool)
      modifies this
      ensures messages == if id !in old(messages) then old(messages)
                          else old(messages)[id := if sent then AfterSuccess(old(messages)[id], now)
                                                   else AfterFailure(old(messages)[id], claimed.attempts, now)]
      ensures id in messages ==> (retry <==> messages[id].status.Queued? && !sent)
    {
      retry := false;
      if !sent {
        var terminal := claimed.attempts >= MAX_ATTEMPTS;
        if id in messages {
          messages := messages[id := AfterFailure(messages[id], claimed.attempts, now)];
        }
        retry := !terminal;
      } else if id in messages {
        messages := messages[id := AfterSuccess(messages[id], now)];
      }
    }

    /** Requeues stale rows and lists up to one batch of rows to deliver. */
    method DispatchPending(now: Time, lockTimeout: nat) returns (ids: seq<MessageId>)
      modifies this
      ensures messages == Requeue(old(messages), now - lockTimeout)
      ensures |ids| <= BATCH
      ensures forall i | 0 <= i < |ids| :: ids[i] in messages && Dispatchable(messages[ids[i]], now)
      ensures forall i, j | 0 <= i < j < |ids| :: ids[i] != ids[j]
      ensures |ids| < BATCH ==> forall id | id in messages && Dispatchable(messages[id], now) :: id in ids
    {
      messages := Requeue(messages, now - lockTimeout);
      ids := [];
      var todo := messages.Keys;
      while todo != {} && |ids| < BATCH
        invariant todo <= messages.Keys && |ids| <= BATCH
        invariant forall i | 0 <= i < |ids| ::
                    ids[i] in messages && ids[i] !in todo && Dispatchable(messages[ids[i]], now)
        invariant forall i, j | 0 <= i < j < |ids| :: ids[i] != ids[j]
        invariant forall id | id in messages && id !in todo && Dispatchable(messages[id], now) :: id in ids
        decreases todo
      {
        var id :| id in todo;
        todo := todo - {id};
        if Dispatchable(messages[id], now) {
          ids := ids + [id];
        }
      }
    }
  }
}
