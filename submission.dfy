/**
 * What the two submission cogs (cogs/nap_the_cao.py and cogs/nap-the.py)
 * share: the acceptance rule for the provider's reply, the pending row a
 * submission creates, and the confirm/cancel view.
 */
module Submission {
  import opened Wrappers
  import opened Records
  import Provider

  /** A validator's answer: passes, refuses with a reason, or raises. */
  datatype Verdict<+E> = Accept | Reject(reason: E) | Raise

  /** The provider took the card in (1 or 2) or has it queued (99). */
  predicate Accepted(status: int) {
    status == 1 || status == 2 || status == 99
  }

  /** What the user supplied and where the command was issued. */
  datatype Submitted = Submitted(
    telco: string, amount: int, code: string, serial: string,
    userId: string, channelId: string)

  datatype SubmitFailure =
    | ApiError          // the request failed: no reply at all
    | Refused(status: int)
    | MissingKey        // a key the cog reads with `response[...]` is absent (KeyError)
    | FollowupFailed    // the "processing" message could not be sent
    | NoCredentials     // no credential row to sign with (AttributeError)
    | NoProviderSetting // the settings have no `provider` key (KeyError)
    | CommitFailed

  /**
   * The row `process_card_exchange` stages for a reply, in the order the
   * cog reads the reply: the status, then on refusal the message, the
   * transaction id for the follow-up message, then the request id. The
   * ids stored are the provider's, not the locally generated one; the
   * `server` column holds the provider setting as the cog reads it.
   */
  function PendingRecord(reply: Option<Provider.Reply>, followupId: Option<string>, s: Submitted, server: string)
    : (r: Result<ExchangeRecord, SubmitFailure>)
    ensures reply.None? ==> r == Err(ApiError)
    ensures r.Ok? <==>
      && reply.Some? && reply.value.status.Some? && Accepted(reply.value.status.value)
      && reply.value.transId.Some? && followupId.Some? && reply.value.requestId.Some?
    ensures reply.Some? && reply.value.status.Some? && !Accepted(reply.value.status.value) ==>
      r == (if reply.value.message.Some? then Err(Refused(reply.value.status.value)) else Err(MissingKey))
    ensures r.Ok? ==>
      && r.value.status == Pending
      && r.value.value == s.amount && r.value.cardValue == 0
      && r.value.telco == s.telco && r.value.code == s.code && r.value.serial == s.serial
      && r.value.userId == s.userId && r.value.channelId == Some(s.channelId)
      && r.value.messageId == followupId.value && r.value.server == Some(server)
      && r.value.requestId == reply.value.requestId.value
      && r.value.transactionId == reply.value.transId
  {
    match reply
    case None => Err(ApiError)
    case Some(resp) =>
      if resp.status.None? then Err(MissingKey)
      else if !Accepted(resp.status.value) then
        if resp.message.Some? then Err(Refused(resp.status.value)) else Err(MissingKey)
      else if resp.transId.None? then Err(MissingKey)
      else if followupId.None? then Err(FollowupFailed)
      else if resp.requestId.None? then Err(MissingKey)
      else
        Ok(NewRecord(s.telco, Some(s.amount), s.code, s.serial, s.userId, followupId.value,
                     Some(s.channelId), None, Some(server), resp.requestId.value, resp.transId, Some(Pending)))
  }

  /** Replies with status 1, 2 or 99 and the keys present are the only ones that create a row. */
  lemma RefusedStatusCreatesNothing(reply: Provider.Reply, followupId: Option<string>, s: Submitted, server: string)
    requires reply.status.Some? && !Accepted(reply.status.value)
    ensures PendingRecord(Some(reply), followupId, s, server).Err?
  {
  }

  /**
   * The confirm/cancel prompt. `children` holds the disabled flag of each
   * button; only the user who issued the command may press them.
   */
  class ConfirmationView {
    const ownerId: string
    const children: array<bool>

    constructor (ownerId0: string)
      ensures ownerId == ownerId0
      ensures fresh(children) && children.Length == 2
      ensures forall i :: 0 <= i < children.Length ==> !children[i]
    {
      ownerId := ownerId0;
      children := new bool[2](_ => false);
    }

    method DisableAll()
      modifies children
      ensures forall i :: 0 <= i < children.Length ==> children[i]
    {
      for i := 0 to children.Length
        invariant forall j :: 0 <= j < i ==> children[j]
      {
        children[i] := true;
      }
    }

    /**
     * The confirm button: another user changes nothing; the owner disables
     * every button, after which the cog processes the card (`proceed`).
     */
    method Confirm(userId: string) returns (proceed: bool)
      modifies children
      ensures proceed <==> userId == ownerId
      ensures proceed ==> forall i :: 0 <= i < children.Length ==> children[i]
      ensures !proceed ==> children[..] == old(children[..])
    {
      if userId != ownerId {
        return false;
      }
      DisableAll();
      proceed := true;
    }

    /** The cancel button: like confirm, but nothing is processed afterwards. */
    method Cancel(userId: string) returns (cancelled: bool)
      modifies children
      ensures cancelled <==> userId == ownerId
      ensures cancelled ==> forall i :: 0 <= i < children.Length ==> children[i]
      ensures !cancelled ==> children[..] == old(children[..])
    {
      if userId != ownerId {
        return false;
      }
      DisableAll();
      cancelled := true;
    }

    method OnTimeout()
      modifies children
      ensures forall i :: 0 <= i < children.Length ==> children[i]
    {
      DisableAll();
    }
  }
}
