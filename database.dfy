/**
 * The database the cogs and tasks share: the exchange-history table and
 * the partner-credential table. A committed change is an assignment to a
 * table; a rolled-back one leaves the table as it was. The ghost counters
 * record how many sessions were opened and closed.
 */
module Database {
  import opened Wrappers
  import opened Records

  class Store {
    var history: seq<ExchangeRecord>
    var credentials: seq<Credential>
    ghost var sessionsOpened: nat
    ghost var sessionsClosed: nat

    constructor (history0: seq<ExchangeRecord>, credentials0: seq<Credential>)
      ensures history == history0 && credentials == credentials0
      ensures sessionsOpened == 0 && sessionsClosed == 0
    {
      history := history0;
      credentials := credentials0;
      sessionsOpened := 0;
      sessionsClosed := 0;
    }
  }

  /** `session.query(Card2k).first()`. */
  function FirstRow(credentials: seq<Credential>): (r: Option<Credential>)
    ensures r.None? <==> credentials == []
    ensures r.Some? ==> r.value == credentials[0]
  {
    if credentials == [] then None else Some(credentials[0])
  }
}
