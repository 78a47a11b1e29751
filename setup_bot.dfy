/**
 * The `/setup-bot` command (cogs/setup_bot.py): replace the stored partner
 * credentials by one new row. The delete and the insert are committed
 * separately, so the replacement is not atomic.
 */
module SetupBot {
  import opened Wrappers
  import opened Records
  import opened Database

  /** Both credential columns are String(255). */
  const MaxLength: nat := 255

  predicate Fits(partnerId: string, partnerKey: string) {
    |partnerId| <= MaxLength && |partnerKey| <= MaxLength
  }

  /** Where a database step raises, if anywhere. */
  datatype Fault = NoFault | DeleteFails | InsertFails

  datatype SetupOutcome = TooLong | Saved | SaveFailed

  /** The credential table after the two transactions. */
  function CredentialsAfter(before: seq<Credential>, partnerId: string, partnerKey: string, fault: Fault)
    : (r: seq<Credential>)
    ensures !Fits(partnerId, partnerKey) ==> r == before
    ensures Fits(partnerId, partnerKey) && fault == NoFault ==> r == [Credential(partnerId, partnerKey)]
    ensures Fits(partnerId, partnerKey) && fault == DeleteFails ==> r == before
    ensures Fits(partnerId, partnerKey) && fault == InsertFails ==> r == []
  {
    if !Fits(partnerId, partnerKey) then before
    else
      match fault
      case DeleteFails => before
      case InsertFails => []
      case NoFault => [Credential(partnerId, partnerKey)]
  }

  /**
   * The command: reject over-long values before touching the database;
   * otherwise delete every row and commit, insert the new row and commit,
   * rolling back the open transaction and closing the session on failure.
   */
  method SetUp(store: Store, partnerId: string, partnerKey: string, fault: Fault) returns (r: SetupOutcome)
    modifies store
    ensures r == TooLong <==> !Fits(partnerId, partnerKey)
    ensures r == Saved <==> Fits(partnerId, partnerKey) && fault == NoFault
    ensures r == TooLong ==>
      store.sessionsOpened == old(store.sessionsOpened) && store.sessionsClosed == old(store.sessionsClosed)
    ensures r != TooLong ==>
      store.sessionsOpened == old(store.sessionsOpened) + 1 && store.sessionsClosed == old(store.sessionsClosed) + 1
    ensures store.credentials == CredentialsAfter(old(store.credentials), partnerId, partnerKey, fault)
    ensures store.history == old(store.history)
  {
    if |partnerId| > MaxLength || |partnerKey| > MaxLength {
      return TooLong;
    }
    store.sessionsOpened := store.sessionsOpened + 1;
    if fault == DeleteFails {
      r := SaveFailed;
    } else {
      store.credentials := [];
      if fault == InsertFails {
        r := SaveFailed;
      } else {
        store.credentials := store.credentials + [Credential(partnerId, partnerKey)];
        r := Saved;
      }
    }
    store.sessionsClosed := store.sessionsClosed + 1;
  }

  /** Values of exactly 255 characters are accepted; one more is refused. */
  lemma BoundaryLengths(partnerId: string, partnerKey: string)
    requires |partnerId| == 255 && |partnerKey| <= 255
    ensures Fits(partnerId, partnerKey)
    ensures !Fits(partnerId + "x", partnerKey)
    ensures !Fits(partnerKey, partnerId + "x")
  {
  }

  /** A successful setup leaves exactly the new row, whatever was stored before. */
  lemma SetupReplacesAll(before: seq<Credential>, partnerId: string, partnerKey: string)
    requires Fits(partnerId, partnerKey)
    ensures var after := CredentialsAfter(before, partnerId, partnerKey, NoFault);
      |after| == 1 && FirstRow(after) == Some(Credential(partnerId, partnerKey))
  {
  }
}
