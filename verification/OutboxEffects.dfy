/** What each database update of the outbox does to a row, with the deployed numbers. */
module OutboxEffects {
  import opened Wrappers
  import opened Outbox

  /** Every field but those that the caller lists is the same. */
  predicate SameMail(m: Message, m': Message) { m'.kind == m.kind && m'.secret == m.secret && m'.sentAt == m.sentAt }

  lemma NewMessageIsDue(kind: Kind, secret: string, now: Time)
    ensures var m := NewMessage(kind, secret, now);
            && m.kind == kind && m.secret == secret && m.status == Queued && m.attempts == 0
            && m.availableAt == now && m.lockedAt == None && m.sentAt == None
  {
  }

  /**
   * Exactly which rows a worker can claim: queued ones, whether due or not, and those in processing
   * without a lock or with one of at least fifteen minutes; never legacy rows.
   */
  lemma ClaimedExactly(m: Message, now: Time)
    ensures Claimable(m, now, DEPLOYED.lockTimeout) <==>
            && m.kind != AutomationRun
            && (m.status == Queued
                || (m.status == Processing && (m.lockedAt.Some? ==> now - m.lockedAt.value >= 900)))
    ensures var m' := Claimed(m, now);
            && SameMail(m, m') && m'.availableAt == m.availableAt
            && m'.status == Processing && m'.lockedAt == Some(now) && m'.attempts == m.attempts + 1
  {
  }

  /** The delays between the attempts double from one minute and stop at an hour. */
  lemma {:induction false} DelaysDouble(attempts: nat)
    requires attempts >= 1
    ensures Backoff(1) == 60
    ensures Backoff(attempts + 1) == if 2 * Backoff(attempts) < 3600 then 2 * Backoff(attempts) else 3600
  {
    assert Pow2(attempts) == 2 * Pow2(attempts - 1);
  }

  lemma {:induction false} LongDelays(attempts: nat)
    requires attempts >= 7
    ensures Backoff(6) == 1920 && Backoff(attempts) == 3600
  {
    DelaysDouble(attempts - 1);
    if attempts == 7 {
      DelaysDouble(1);
      DelaysDouble(2);
      DelaysDouble(3);
      DelaysDouble(4);
      DelaysDouble(5);
    } else {
      LongDelays(attempts - 1);
    }
  }

  /** So the five retries come after 1, 2, 4, 8 and 16 minutes, and the sixth failure is the last. */
  lemma RetrySchedule(m: Message, now: Time)
    ensures forall n | 1 <= n <= 5 ::
              var m' := AfterFailure(m, n, now);
              && SameMail(m, m') && m'.attempts == m.attempts && m'.lockedAt == None
              && m'.status == Queued && m'.availableAt == now + 60 * [1, 2, 4, 8, 16][n - 1]
    ensures forall n | n >= 6 ::
              var m' := AfterFailure(m, n, now);
              && SameMail(m, m') && m'.attempts == m.attempts && m'.lockedAt == None
              && m'.status == Failed && m'.availableAt == now + if n == 6 then 1920 else 3600
  {
    LongDelays(7);
    forall n | n >= 7 ensures Backoff(n) == 3600 {
      LongDelays(n);
    }
    DelaysDouble(1);
    DelaysDouble(2);
    DelaysDouble(3);
    DelaysDouble(4);
    forall n | 1 <= n <= 5 ensures Backoff(n) == 60 * [1, 2, 4, 8, 16][n - 1] {
      assert n == 1 || n == 2 || n == 3 || n == 4 || n == 5;
    }
  }

  /** A sent message loses its secret and remembers when it was sent. */
  lemma SuccessIsRecorded(m: Message, now: Time)
    ensures var m' := AfterSuccess(m, now);
            && m'.status == Sent && m'.sentAt == Some(now) && m'.lockedAt == None && m'.secret == ""
            && m'.kind == m.kind && m'.attempts == m.attempts && m'.availableAt == m.availableAt
  {
  }

  /** What one run of the dispatcher does to a row, and whether it is handed out afterwards. */
  lemma DispatchedExactly(messages: map<MessageId, Message>, id: MessageId, now: Time)
    ensures var messages' := Requeue(messages, now - DEPLOYED.lockTimeout);
            && messages'.Keys == messages.Keys
            && (id in messages ==>
                  var m, m' := messages[id], messages'[id];
                  var abandoned := m.status == Processing && m.lockedAt.Some? && now - m.lockedAt.value > 900;
                  && SameMail(m, m') && m'.attempts == m.attempts && m'.availableAt == m.availableAt
                  && m'.status == (if abandoned then Queued else m.status)
                  && m'.lockedAt == (if abandoned then None else m.lockedAt)
                  && (Dispatchable(m', now) <==>
                        (m.status == Queued || abandoned) && m.availableAt <= now && m.kind != AutomationRun))
  {
  }

  /** The limits the service is deployed with: two minutes for a task, and batches of 500. */
  lemma DeployedLimits()
    ensures DEPLOYED.taskLimit == 2 * 60 && DEPLOYED.lockTimeout == 15 * 60 && BATCH == 500 && MAX_ATTEMPTS == 6
  {
  }
}
