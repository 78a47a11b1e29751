/**
 * The card-status sweep of tasks/nap_the_cao_task.py and of its older copy
 * tasks/check_history_exchange_card.py: a timer-driven task that asks the
 * provider about every pending row, resolves the row by the reply's status
 * code, commits, and then tries once to edit the message that announced
 * the submission. The two copies differ only in how they are configured
 * and which client signs the request; one class models both.
 */
module Reconciliation {
  import opened Wrappers
  import opened Config
  import opened Text
  import opened Records
  import opened Database
  import Provider
  import LegacyApi

  // ---- mode and interval ----------------------------------------------------

  const DefaultDelay: int := 60
  const MinDelay: int := 30

  /** `card_status_check.type == "api"`: only then does the task poll. */
  predicate ApiMode(checkType: Option<Value>) {
    checkType == Some(Str("api"))
  }

  /** `max(30, delay_time)`, with `delay_time` defaulting to 60 seconds. */
  function PollInterval(delay: Option<int>): (r: int)
    ensures r >= MinDelay
    ensures delay.None? ==> r == DefaultDelay
    ensures delay.Some? && delay.value >= MinDelay ==> r == delay.value
    ensures delay.Some? && delay.value < MinDelay ==> r == MinDelay
  {
    var d := delay.GetOr(DefaultDelay);
    if d < MinDelay then MinDelay else d
  }

  // ---- the resolution policy ------------------------------------------------

  /**
   * The keys the sweep reads with `response[...]` are present: the status
   * always, the declared value for 1 and 2, the message for a failure.
   */
  predicate WellFormedCheckReply(reply: Option<Provider.Reply>) {
    match reply
    case None => true
    case Some(r) =>
      && r.status.Some?
      && (r.status.value == 1 || r.status.value == 2 ==> r.declaredValue.Some?)
      && (r.status.value != 99 && r.status.value != 4 && r.status.value != 1 && r.status.value != 2 ==>
            r.message.Some?)
  }

  /** No reply, 99 (still processing) and 4 (maintenance) leave the row alone. */
  predicate Changes(reply: Option<Provider.Reply>) {
    reply.Some? && reply.value.status.Some? && reply.value.status.value != 99 && reply.value.status.value != 4
  }

  /** The status a resolving code leads to. */
  function Outcome(code: int): Status {
    if code == 1 then Success else if code == 2 then WrongAmount else Failed
  }

  /** The identity and submission columns of a row, which no resolution touches. */
  predicate SameSubmission(a: ExchangeRecord, b: ExchangeRecord) {
    && a.telco == b.telco && a.value == b.value && a.code == b.code && a.serial == b.serial
    && a.userId == b.userId && a.messageId == b.messageId && a.channelId == b.channelId
    && a.server == b.server && a.requestId == b.requestId && a.transactionId == b.transactionId
  }

  /**
   * The row after one reply: 1 and 2 copy the declared value into
   * `card_value`, any other resolving code leaves it; nothing else changes.
   */
  function Resolve(rec: ExchangeRecord, reply: Option<Provider.Reply>): (r: ExchangeRecord)
    requires WellFormedCheckReply(reply)
    ensures !Changes(reply) ==> r == rec
    ensures Changes(reply) ==> SameSubmission(r, rec) && r.status == Outcome(reply.value.status.value)
    ensures Changes(reply) ==> IsTerminal(r.status)
    ensures Changes(reply) && r.status != Failed ==> r.cardValue == reply.value.declaredValue.value
    ensures r.status == Failed ==> r.cardValue == rec.cardValue
  {
    if !Changes(reply) then rec
    else
      var code := reply.value.status.value;
      if code == 1 || code == 2 then rec.(cardValue := reply.value.declaredValue.value, status := Outcome(code))
      else rec.(status := Failed)
  }

  /** A reply of status 1 declaring 50 000 resolves the row to success worth 50 000. */
  lemma ResolveExample(rec: ExchangeRecord)
    requires rec.status == Pending
    ensures var reply := Some(Provider.Reply(Some(1), None, Some(50000), None, None));
      Resolve(rec, reply) == rec.(cardValue := 50000, status := Success)
  {
  }

  // ---- the message edit -----------------------------------------------------

  const FallbackReason: string := "Thẻ cào không hợp lệ hoặc đã được sử dụng."

  /** The reason shown on a failed card: the provider's message, unless it is empty. */
  function FailureReason(message: Option<string>): (r: string)
    ensures message.Some? && message.value != "" ==> r == message.value
    ensures message.None? || message.value == "" ==> r == FallbackReason
    ensures r != ""
  {
    if message.Some? && message.value != "" then message.value else FallbackReason
  }

  /** The content of the edited message, by the row's new status. */
  datatype Embed =
    | SuccessEmbed(rec: ExchangeRecord)
    | WrongAmountEmbed(rec: ExchangeRecord)
    | FailedEmbed(rec: ExchangeRecord, reason: string)

  function EmbedFor(rec: ExchangeRecord, message: Option<string>): (e: Embed)
    requires IsTerminal(rec.status)
    ensures e.rec == rec
    ensures e.FailedEmbed? <==> rec.status == Failed
    ensures e.SuccessEmbed? <==> rec.status == Success
    ensures e.FailedEmbed? ==> e.reason == FailureReason(message)
  {
    match rec.status
    case Success => SuccessEmbed(rec)
    case WrongAmount => WrongAmountEmbed(rec)
    case Failed => FailedEmbed(rec, FailureReason(message))
  }

  /**
   * What the bot can reach: the channels in its cache (`get_channel`), the
   * text channels of each guild in order, and the (channel, message) pairs
   * `fetch_message` finds; any other fetch raises and is caught.
   */
  datatype Platform = Platform(cached: set<nat>, guilds: seq<seq<nat>>, messages: set<(nat, nat)>)

  /** Every guild's text channels, guild by guild. */
  function Flatten(gs: seq<seq<nat>>): seq<nat> {
    if gs == [] then [] else Flatten(gs[..|gs| - 1]) + gs[|gs| - 1]
  }

  lemma {:induction false} FlattenAppend(a: seq<seq<nat>>, b: seq<seq<nat>>)
    ensures Flatten(a + b) == Flatten(a) + Flatten(b)
  {
    if b == [] {
      assert a + b == a;
    } else {
      var ab, init, last := a + b, b[..|b| - 1], b[|b| - 1];
      assert ab[..|ab| - 1] == a + init;
      assert ab[|ab| - 1] == last;
      assert Flatten(ab) == Flatten(a + init) + last;
      FlattenAppend(a, init);
      assert Flatten(b) == Flatten(init) + last;
    }
  }

  /** The first channel of `chs` that holds message m. */
  function FirstHolder(chs: seq<nat>, messages: set<(nat, nat)>, m: nat): (r: Option<nat>)
    ensures r.None? <==> forall i :: 0 <= i < |chs| ==> (chs[i], m) !in messages
    ensures r.Some? ==>
      exists i :: 0 <= i < |chs| && chs[i] == r.value && (chs[i], m) in messages &&
        forall j :: 0 <= j < i ==> (chs[j], m) !in messages
  {
    if chs == [] then None
    else if (chs[0], m) in messages then Some(chs[0])
    else
      var r := FirstHolder(chs[1..], messages, m);
      assert forall i :: 1 <= i < |chs| ==> chs[i] == chs[1..][i - 1];
      r
  }

  lemma {:induction false} FirstHolderAppend(a: seq<nat>, b: seq<nat>, messages: set<(nat, nat)>, m: nat)
    ensures FirstHolder(a + b, messages, m) ==
      if FirstHolder(a, messages, m).Some? then FirstHolder(a, messages, m) else FirstHolder(b, messages, m)
  {
    if a == [] {
      assert a + b == b;
    } else {
      assert (a + b)[0] == a[0];
      assert (a + b)[1..] == a[1..] + b;
      FirstHolderAppend(a[1..], b, messages, m);
    }
  }

  /** The stored channel, when it is set, parses, is cached and holds message m. */
  function DirectHit(p: Platform, rec: ExchangeRecord, m: nat): Option<nat> {
    if rec.channelId.None? || rec.channelId.value == "" then None
    else
      match ParseId(rec.channelId.value)
      case None => None
      case Some(c) => if c in p.cached && (c, m) in p.messages then Some(c) else None
  }

  /**
   * The channel whose copy of the row's message gets edited: the stored
   * channel first, otherwise the first holder in guild-and-channel order;
   * None (no edit) when the message id does not parse or nothing holds it.
   */
  function Located(p: Platform, rec: ExchangeRecord): (r: Option<nat>)
    ensures r.Some? ==> ParseId(rec.messageId).Some? && (r.value, ParseId(rec.messageId).value) in p.messages
    ensures ParseId(rec.messageId).Some? && DirectHit(p, rec, ParseId(rec.messageId).value).Some? ==>
      r == DirectHit(p, rec, ParseId(rec.messageId).value)
  {
    match ParseId(rec.messageId)
    case None => None
    case Some(m) =>
      if DirectHit(p, rec, m).Some? then DirectHit(p, rec, m)
      else
        var h := FirstHolder(Flatten(p.guilds), p.messages, m);
        assert h.Some? ==> h.value in Flatten(p.guilds) && (h.value, m) in p.messages;
        h
  }

  /** Without a direct hit the edit goes to the earliest holder; with no holder there is no edit. */
  lemma ScanTakesFirstHolder(p: Platform, rec: ExchangeRecord, m: nat)
    requires ParseId(rec.messageId) == Some(m) && DirectHit(p, rec, m).None?
    ensures Located(p, rec).None? <==>
      forall i :: 0 <= i < |Flatten(p.guilds)| ==> (Flatten(p.guilds)[i], m) !in p.messages
    ensures Located(p, rec).Some? ==>
      exists i :: 0 <= i < |Flatten(p.guilds)| && Flatten(p.guilds)[i] == Located(p, rec).value &&
        forall j :: 0 <= j < i ==> (Flatten(p.guilds)[j], m) !in p.messages
  {
  }

  /** `_update_discord_message`'s search: direct channel, then the nested scan with its two breaks. */
  method LocateMessage(p: Platform, rec: ExchangeRecord) returns (found: Option<nat>)
    ensures found == Located(p, rec)
  {
    var mid := ParseId(rec.messageId);
    if mid.None? {
      return None;
    }
    var m := mid.value;
    found := None;
    if rec.channelId.Some? && rec.channelId.value != "" {
      var cid := ParseId(rec.channelId.value);
      if cid.Some? && cid.value in p.cached && (cid.value, m) in p.messages {
        found := cid;
      }
    }
    if found.Some? {
      return;
    }
    var gs := p.guilds;
    for g := 0 to |gs|
      invariant found.None?
      invariant FirstHolder(Flatten(gs[..g]), p.messages, m).None?
    {
      var chs := gs[g];
      for c := 0 to |chs|
        invariant found.None?
        invariant FirstHolder(chs[..c], p.messages, m).None?
      {
        if (chs[c], m) in p.messages {
          found := Some(chs[c]);
          ScanHit(gs, g, c, p.messages, m);
          return;
        }
        FirstHolderAppend(chs[..c], [chs[c]], p.messages, m);
        assert chs[..c + 1] == chs[..c] + [chs[c]];
      }
      assert gs[..g + 1][..g] == gs[..g];
      assert chs[..|chs|] == chs;
      FirstHolderAppend(Flatten(gs[..g]), chs, p.messages, m);
    }
    assert gs[..|gs|] == gs;
  }

  /** A holder met at channel c of guild g, after none before it, is the first holder overall. */
  lemma ScanHit(gs: seq<seq<nat>>, g: nat, c: nat, messages: set<(nat, nat)>, m: nat)
    requires g < |gs| && c < |gs[g]| && (gs[g][c], m) in messages
    requires FirstHolder(Flatten(gs[..g]), messages, m).None?
    requires FirstHolder(gs[g][..c], messages, m).None?
    ensures FirstHolder(Flatten(gs), messages, m) == Some(gs[g][c])
  {
    var chs := gs[g];
    FlattenAround(gs, g);
    assert FirstHolder(chs, messages, m) == Some(chs[c]) by {
      assert chs == chs[..c] + chs[c..];
      assert chs[c..][0] == chs[c];
      FirstHolderAppend(chs[..c], chs[c..], messages, m);
    }
    FirstHolderAppend(Flatten(gs[..g]), chs, messages, m);
    FirstHolderAppend(Flatten(gs[..g]) + chs, Flatten(gs[g + 1..]), messages, m);
  }

  /** The channels of guild g sit between those of the guilds before and after it. */
  lemma FlattenAround(gs: seq<seq<nat>>, g: nat)
    requires g < |gs|
    ensures Flatten(gs) == Flatten(gs[..g]) + gs[g] + Flatten(gs[g + 1..])
  {
    var before, after := gs[..g + 1], gs[g + 1..];
    assert gs == before + after;
    FlattenAppend(before, after);
    FlattenPrefix(gs, g);
    calc {
      Flatten(gs);
      Flatten(before + after);
      Flatten(before) + Flatten(after);
      Flatten(gs[..g]) + gs[g] + Flatten(after);
    }
  }

  lemma FlattenPrefix(gs: seq<seq<nat>>, g: nat)
    requires g < |gs|
    ensures Flatten(gs[..g + 1]) == Flatten(gs[..g]) + gs[g]
  {
    var upto := gs[..g + 1];
    assert upto[..|upto| - 1] == gs[..g];
  }

  // ---- the sweep --------------------------------------------------------------

  /** What the sweep does, in order: ask, commit, edit. */
  datatype Event =
    | Queried(index: nat, payload: Provider.Payload)
    | Committed(index: nat, status: Status)
    | Edited(index: nat, channel: nat, embed: Embed)

  /** The request fields of a row (`data` in the source). */
  function CardDataOf(rec: ExchangeRecord): Provider.CardData {
    Provider.CardData(rec.telco, rec.code, rec.serial, rec.value, rec.requestId)
  }

  /**
   * The events of row i: nothing unless it is pending; then the check
   * request, and when the reply resolves it, the commit followed by at
   * most one edit.
   */
  function RecordEvents(i: nat, rec: ExchangeRecord, reply: Option<Provider.Reply>,
                        client: Provider.Client, md5: string -> string, p: Platform): seq<Event>
    requires rec.status == Pending ==> WellFormedCheckReply(reply)
  {
    if rec.status != Pending then []
    else
      [Queried(i, Provider.CheckPayload(client, md5, CardDataOf(rec)))] +
      if !Changes(reply) then []
      else
        var r := Resolve(rec, reply);
        [Committed(i, r.status)] +
        match Located(p, r)
        case None => []
        case Some(ch) => [Edited(i, ch, EmbedFor(r, reply.value.message))]
  }

  /** One reply per row, well formed wherever the row is pending. */
  predicate SweepReady(h: seq<ExchangeRecord>, responses: seq<Option<Provider.Reply>>) {
    |responses| == |h| &&
    forall i :: 0 <= i < |h| && h[i].status == Pending ==> WellFormedCheckReply(responses[i])
  }

  /** The table after a sweep: every pending row resolved by its reply, the others as they were. */
  function Swept(h: seq<ExchangeRecord>, responses: seq<Option<Provider.Reply>>): (r: seq<ExchangeRecord>)
    requires SweepReady(h, responses)
    ensures |r| == |h|
  {
    seq(|h|, i requires 0 <= i < |h| => if h[i].status == Pending then Resolve(h[i], responses[i]) else h[i])
  }

  /** The events of every row, row by row. */
  function RowEvents(h: seq<ExchangeRecord>, responses: seq<Option<Provider.Reply>>,
                     client: Provider.Client, md5: string -> string, p: Platform): (rows: seq<seq<Event>>)
    requires SweepReady(h, responses)
    ensures |rows| == |h|
  {
    seq(|h|, i requires 0 <= i < |h| => RecordEvents(i, h[i], responses[i], client, md5, p))
  }

  /** The first n lists, one after the other. */
  function Concat(rows: seq<seq<Event>>, n: nat): seq<Event>
    requires n <= |rows|
  {
    if n == 0 then [] else Concat(rows, n - 1) + rows[n - 1]
  }

  /** The events of the first n rows. */
  function SweepEvents(h: seq<ExchangeRecord>, responses: seq<Option<Provider.Reply>>,
                       client: Provider.Client, md5: string -> string, p: Platform, n: nat): seq<Event>
    requires SweepReady(h, responses) && n <= |h|
  {
    Concat(RowEvents(h, responses, client, md5, p), n)
  }

  class CardStatusTask {
    const running: bool
    const interval: Option<int>
    const store: Store
    var loopActive: bool
    var sessionOpen: bool
    /** Every request, commit and edit attempt since the task was created. */
    ghost var events: seq<Event>

    /** `__init__`: in API mode start the loop at the clamped interval and open a session. */
    constructor (checkType: Option<Value>, delay: Option<int>, store0: Store)
      ensures running == ApiMode(checkType) && store == store0
      ensures running ==> interval == Some(PollInterval(delay)) && loopActive && sessionOpen
      ensures !running ==> interval.None? && !loopActive && !sessionOpen
      ensures events == []
    {
      running := ApiMode(checkType);
      store := store0;
      if ApiMode(checkType) {
        interval := Some(PollInterval(delay));
        loopActive, sessionOpen := true, true;
      } else {
        interval := None;
        loopActive, sessionOpen := false, false;
      }
      events := [];
    }

    /**
     * One run of `check_history_exchange_card`: for each pending row, ask
     * the provider (`responses[i]` is this row's reply) and, when the reply
     * resolves it, commit the new status and try to edit the message.
     */
    method Sweep(client: Provider.Client, md5: string -> string, responses: seq<Option<Provider.Reply>>, p: Platform)
      requires loopActive
      requires SweepReady(store.history, responses)
      modifies store, this`events
      ensures store.history == Swept(old(store.history), responses)
      ensures events == old(events) + SweepEvents(old(store.history), responses, client, md5, p, |old(store.history)|)
      ensures store.credentials == old(store.credentials)
      ensures store.sessionsOpened == old(store.sessionsOpened) && store.sessionsClosed == old(store.sessionsClosed)
    {
      var h := store.history;
      for i := 0 to |h|
        invariant |store.history| == |h|
        invariant forall j :: 0 <= j < i ==> store.history[j] == Swept(h, responses)[j]
        invariant forall j :: i <= j < |h| ==> store.history[j] == h[j]
        invariant events == old(events) + SweepEvents(h, responses, client, md5, p, i)
        invariant store.credentials == old(store.credentials)
        invariant store.sessionsOpened == old(store.sessionsOpened) && store.sessionsClosed == old(store.sessionsClosed)
      {
        SweepRow(i, h[i], responses[i], client, md5, p);
      }
      assert store.history == Swept(h, responses);
    }

    /** One iteration of the sweep: row i, whose reply is `reply`. */
    method SweepRow(i: nat, rec: ExchangeRecord, reply: Option<Provider.Reply>,
                    client: Provider.Client, md5: string -> string, p: Platform)
      requires i < |store.history| && store.history[i] == rec
      requires rec.status == Pending ==> WellFormedCheckReply(reply)
      modifies store, this`events
      ensures store.history == old(store.history)[i := if rec.status == Pending then Resolve(rec, reply) else rec]
      ensures events == old(events) + RecordEvents(i, rec, reply, client, md5, p)
      ensures store.credentials == old(store.credentials)
      ensures store.sessionsOpened == old(store.sessionsOpened) && store.sessionsClosed == old(store.sessionsClosed)
    {
      if rec.status != Pending {
        return;
      }
      events := events + [Queried(i, Provider.CheckPayload(client, md5, CardDataOf(rec)))];
      if reply.None? || reply.value.status.value == 99 || reply.value.status.value == 4 {
        return;
      }
      var code := reply.value.status.value;
      var updated: ExchangeRecord;
      if code == 1 {
        updated := rec.(cardValue := reply.value.declaredValue.value, status := Success);
      } else if code == 2 {
        updated := rec.(cardValue := reply.value.declaredValue.value, status := WrongAmount);
      } else {
        updated := rec.(status := Failed);
      }
      store.history := store.history[i := updated];
      events := events + [Committed(i, updated.status)];
      var ch := LocateMessage(p, updated);
      if ch.Some? {
        events := events + [Edited(i, ch.value, EmbedFor(updated, reply.value.message))];
      }
    }

    /**
     * A tick of the older copy. Its setup check returns early, only
     * logging, when the first credential row is missing or incomplete;
     * past that it reads `config["provider"]`, which raises when the key is
     * absent. The check request reads the first credential row and the
     * key again, so it raises at the first pending row when either is
     * missing. An exception the loop body does not catch ends the task.
     */
    method CheckHistoryTick(md5: string -> string, provider: Option<string>,
                            responses: seq<Option<Provider.Reply>>, p: Platform)
      requires loopActive
      requires SweepReady(store.history, responses)
      modifies store, this`events, this`loopActive
      ensures var row := FirstRow(old(store.credentials));
        var complete := row.Some? && |row.value.partnerId| > 0 && |row.value.partnerKey| > 0;
        var pending := exists i :: 0 <= i < |old(store.history)| && old(store.history)[i].status == Pending;
        var raises := (complete && provider.None?) || (pending && (row.None? || provider.None?));
        && (raises ==> !loopActive && store.history == old(store.history) && events == old(events))
        && (!raises ==> loopActive && store.history == Swept(old(store.history), responses))
        && (!raises && !pending ==> events == old(events))
        && (!raises && pending ==>
              events == old(events) + SweepEvents(old(store.history), responses,
                LegacyApi.LegacyClient(row.value, provider.value), md5, p, |old(store.history)|))
      ensures store.credentials == old(store.credentials)
    {
      var row := FirstRow(store.credentials);
      if row.Some? && |row.value.partnerId| > 0 && |row.value.partnerKey| > 0 && provider.None? {
        loopActive := false;
        return;
      }
      var i := 0;
      while i < |store.history| && store.history[i].status != Pending
        invariant 0 <= i <= |store.history|
        invariant forall j :: 0 <= j < i ==> store.history[j].status != Pending
      {
        i := i + 1;
      }
      if i == |store.history| {
        NothingPendingNothingSwept(store.history, responses, p, md5);
        return;
      }
      if row.None? || provider.None? {
        loopActive := false;
        return;
      }
      Sweep(LegacyApi.LegacyClient(row.value, provider.value), md5, responses, p);
    }

    /** `cog_unload` as written: it closes `self.session`, which exists only in API mode. */
    method UnloadAsWritten() returns (r: Result<(), string>)
      modifies this`loopActive, this`sessionOpen
      ensures !loopActive
      ensures !running ==> r == Err("AttributeError: no session")
      ensures running && old(sessionOpen) ==> r.Ok? && !sessionOpen
      requires sessionOpen ==> running
    {
      loopActive := false;
      if !running {
        return Err("AttributeError: no session");
      }
      sessionOpen := false;
      r := Ok(());
    }

    /** `cog_unload` corrected: stop the loop and close the session where there is one. */
    method Unload()
      modifies this`loopActive, this`sessionOpen
      ensures !loopActive && !sessionOpen
    {
      loopActive := false;
      if sessionOpen {
        sessionOpen := false;
      }
    }
  }

  /** With no pending row a sweep changes nothing and sends nothing. */
  lemma NothingPendingNothingSwept(h: seq<ExchangeRecord>, responses: seq<Option<Provider.Reply>>,
                                   p: Platform, md5: string -> string)
    requires SweepReady(h, responses)
    requires forall i :: 0 <= i < |h| ==> h[i].status != Pending
    ensures Swept(h, responses) == h
    ensures forall client: Provider.Client, n: nat :: n <= |h| ==> SweepEvents(h, responses, client, md5, p, n) == []
  {
    forall client: Provider.Client, n: nat | n <= |h| ensures SweepEvents(h, responses, client, md5, p, n) == [] {
      NoPendingNoEvents(h, responses, client, md5, p, n);
    }
  }

  lemma {:induction false} NoPendingNoEvents(h: seq<ExchangeRecord>, responses: seq<Option<Provider.Reply>>,
                                             client: Provider.Client, md5: string -> string, p: Platform, n: nat)
    requires SweepReady(h, responses) && n <= |h|
    requires forall i :: 0 <= i < |h| ==> h[i].status != Pending
    ensures SweepEvents(h, responses, client, md5, p, n) == []
  {
    if n > 0 {
      NoPendingNoEvents(h, responses, client, md5, p, n - 1);
    }
  }

  // ---- properties of the sweep -------------------------------------------------

  /** Only pending rows change, and no row's submission columns change. */
  lemma SweepFrame(h: seq<ExchangeRecord>, responses: seq<Option<Provider.Reply>>)
    requires SweepReady(h, responses)
    ensures forall i :: 0 <= i < |h| && h[i].status != Pending ==> Swept(h, responses)[i] == h[i]
    ensures forall i :: 0 <= i < |h| ==> SameSubmission(Swept(h, responses)[i], h[i])
    ensures forall i :: 0 <= i < |h| && h[i].status == Pending && !Changes(responses[i]) ==>
      Swept(h, responses)[i] == h[i]
  {
    forall i | 0 <= i < |h| ensures SameSubmission(Swept(h, responses)[i], h[i]) {
      if h[i].status == Pending && Changes(responses[i]) {
        assert Swept(h, responses)[i] == Resolve(h[i], responses[i]);
      }
    }
  }

  /**
   * Sweeping again leaves every resolved row as it is; when the first
   * sweep resolved every pending row, the second changes nothing at all.
   */
  lemma ResweepKeepsResolved(h: seq<ExchangeRecord>, r1: seq<Option<Provider.Reply>>, r2: seq<Option<Provider.Reply>>)
    requires SweepReady(h, r1) && SweepReady(Swept(h, r1), r2)
    ensures forall i :: 0 <= i < |h| && IsTerminal(Swept(h, r1)[i].status) ==>
      Swept(Swept(h, r1), r2)[i] == Swept(h, r1)[i]
    ensures (forall i :: 0 <= i < |h| && h[i].status == Pending ==> Changes(r1[i])) ==>
      Swept(Swept(h, r1), r2) == Swept(h, r1)
  {
    var once := Swept(h, r1);
    if forall i :: 0 <= i < |h| && h[i].status == Pending ==> Changes(r1[i]) {
      forall i | 0 <= i < |h| ensures IsTerminal(once[i].status) {
        if h[i].status == Pending {
          assert once[i] == Resolve(h[i], r1[i]);
        }
      }
      assert Swept(once, r2) == once;
    }
  }

  /** The replies of rows that are not pending are never read. */
  lemma UnreadReplies(h: seq<ExchangeRecord>, r1: seq<Option<Provider.Reply>>,
                      r2: seq<Option<Provider.Reply>>,
                      client: Provider.Client, md5: string -> string, p: Platform, n: nat)
    requires SweepReady(h, r1) && SweepReady(h, r2) && n <= |h|
    requires forall i :: 0 <= i < |h| && h[i].status == Pending ==> r1[i] == r2[i]
    ensures Swept(h, r1) == Swept(h, r2)
    ensures SweepEvents(h, r1, client, md5, p, n) == SweepEvents(h, r2, client, md5, p, n)
  {
    assert forall i :: 0 <= i < |h| ==> Swept(h, r1)[i] == Swept(h, r2)[i];
    assert RowEvents(h, r1, client, md5, p) == RowEvents(h, r2, client, md5, p);
  }

  /** The events that concern row i, in order. */
  function EventsOfRow(es: seq<Event>, i: nat): (r: seq<Event>)
    ensures forall k :: 0 <= k < |r| ==> r[k].index == i
    ensures |r| <= |es|
  {
    if es == [] then []
    else EventsOfRow(es[..|es| - 1], i) + if es[|es| - 1].index == i then [es[|es| - 1]] else []
  }

  lemma {:induction false} EventsOfRowAppend(a: seq<Event>, b: seq<Event>, i: nat)
    ensures EventsOfRow(a + b, i) == EventsOfRow(a, i) + EventsOfRow(b, i)
  {
    if b == [] {
      assert a + b == a;
    } else {
      assert (a + b)[..|a + b| - 1] == a + b[..|b| - 1];
      assert (a + b)[|a + b| - 1] == b[|b| - 1];
      EventsOfRowAppend(a, b[..|b| - 1], i);
    }
  }

  /** A run of events all about row j: row j's part is all of it, any other row's is empty. */
  lemma {:induction false} EventsOfOneRow(es: seq<Event>, j: nat, i: nat)
    requires forall k :: 0 <= k < |es| ==> es[k].index == j
    ensures EventsOfRow(es, i) == if i == j then es else []
  {
    if es != [] {
      EventsOfOneRow(es[..|es| - 1], j, i);
    }
  }

  lemma RecordEventsIndex(i: nat, rec: ExchangeRecord, reply: Option<Provider.Reply>,
                          client: Provider.Client, md5: string -> string, p: Platform)
    requires rec.status == Pending ==> WellFormedCheckReply(reply)
    ensures forall k :: 0 <= k < |RecordEvents(i, rec, reply, client, md5, p)| ==>
      RecordEvents(i, rec, reply, client, md5, p)[k].index == i
  {
  }

  /** Among the first n rows' events, those of row i are exactly row i's own. */
  lemma SweepEventsOfRow(h: seq<ExchangeRecord>, responses: seq<Option<Provider.Reply>>,
                         client: Provider.Client, md5: string -> string, p: Platform,
                         n: nat, i: nat)
    requires SweepReady(h, responses) && n <= |h| && i < |h|
    ensures EventsOfRow(SweepEvents(h, responses, client, md5, p, n), i) ==
      if i < n then RecordEvents(i, h[i], responses[i], client, md5, p) else []
  {
    var rows: seq<seq<Event>> := RowEvents(h, responses, client, md5, p);
    assert OwnRows(rows) by {
      forall j: nat, k: nat | j < |rows| && k < |rows[j]| ensures rows[j][k].index == j {
        RecordEventsIndex(j, h[j], responses[j], client, md5, p);
      }
    }
    ConcatOfRow(rows, n, i);
  }

  /** Every list of `rows` is about its own row. */
  predicate OwnRows(rows: seq<seq<Event>>) {
    forall j, k :: 0 <= j < |rows| && 0 <= k < |rows[j]| ==> rows[j][k].index == j
  }

  /** When every list is about its own row, row i's part of the first n lists is list i, if i < n. */
  lemma {:induction false} ConcatOfRow(rows: seq<seq<Event>>, n: nat, i: nat)
    requires n <= |rows| && OwnRows(rows)
    ensures EventsOfRow(Concat(rows, n), i) == if i < n then rows[i] else []
  {
    if n > 0 {
      var prev, last := Concat(rows, n - 1), rows[n - 1];
      assert Concat(rows, n) == prev + last;
      assert forall k :: 0 <= k < |last| ==> last[k].index == n - 1;
      ConcatOfRow(rows, n - 1, i);
      EventsOfRowStep(prev, last, n - 1, i);
      if i == n - 1 {
        assert EventsOfRow(prev, i) == [];
        assert [] + last == last;
      }
    }
  }

  /** Appending a run of events about row j adds to row i's part exactly when i is j. */
  lemma EventsOfRowStep(prev: seq<Event>, last: seq<Event>, j: nat, i: nat)
    requires forall k :: 0 <= k < |last| ==> last[k].index == j
    ensures i == j ==> EventsOfRow(prev + last, i) == EventsOfRow(prev, i) + last
    ensures i != j ==> EventsOfRow(prev + last, i) == EventsOfRow(prev, i)
  {
    EventsOfRowAppend(prev, last, i);
    EventsOfOneRow(last, j, i);
    if i != j {
      assert EventsOfRow(prev, i) + [] == EventsOfRow(prev, i);
    }
  }

  /**
   * What a whole sweep does to row i: nothing at all to a resolved row;
   * only the check request for a pending row whose reply is missing, 99 or
   * 4; otherwise the request, the commit of the new status, and then at
   * most one edit, made exactly when the message is located.
   */
  lemma SweepRowEvents(h: seq<ExchangeRecord>, responses: seq<Option<Provider.Reply>>,
                       client: Provider.Client, md5: string -> string, p: Platform, i: nat)
    requires SweepReady(h, responses) && i < |h|
    ensures var es := EventsOfRow(SweepEvents(h, responses, client, md5, p, |h|), i);
      && (IsTerminal(h[i].status) ==> es == [])
      && (h[i].status == Pending && !Changes(responses[i]) ==>
            es == [Queried(i, Provider.CheckPayload(client, md5, CardDataOf(h[i])))])
      && (h[i].status == Pending && Changes(responses[i]) ==>
            var r := Swept(h, responses)[i];
            && |es| >= 2
            && es[..2] == [Queried(i, Provider.CheckPayload(client, md5, CardDataOf(h[i]))), Committed(i, r.status)]
            && (Located(p, r).None? <==> |es| == 2)
            && (Located(p, r).Some? ==>
                  es[2..] == [Edited(i, Located(p, r).value, EmbedFor(r, responses[i].value.message))]))
  {
    SweepEventsOfRow(h, responses, client, md5, p, |h|, i);
  }
}
