/** `sync_provider_connection` and `sync_teller_connection`: what a sync attempt does to a connection, and
    which days runs of attempts fetch. Instants are seconds, dates are day numbers, both in UTC. */
module SyncProtocol {
  import opened Prelude
  import opened Text

  const SECONDS_PER_DAY := 86400
  const MAX_SYNC_DAYS := 365 * 5
  const SAFETY_MARGIN_DAYS := 2
  const FIRST_SYNC_DAYS := 730

  /** `date_naive` */
  function DateOf(instant: int): int {
    instant / SECONDS_PER_DAY
  }

  datatype Window = Window(first: int, last: int)

  /** `calculate_sync_date_range_static` */
  function DateRange(lastSync: Option<int>, now: int): (w: Window)
    ensures w.first <= w.last == DateOf(now) && w.last - w.first <= MAX_SYNC_DAYS
    ensures lastSync.Some? && lastSync.value <= now ==>
              w.first <= DateOf(lastSync.value) || w.last - DateOf(lastSync.value) > MAX_SYNC_DAYS
  {
    var end := DateOf(now);
    match lastSync
    case Some(l) => Window(Min(Max(DateOf(l - SAFETY_MARGIN_DAYS * SECONDS_PER_DAY), end - MAX_SYNC_DAYS), end), end)
    case None => Window(end - FIRST_SYNC_DAYS, end)
  }

  datatype Provider = Plaid | Teller

  datatype Status = Connected | NeedsReauth | Faulty

  /** The columns of `provider_connections` a sync writes; the cursor is not among the stored columns. */
  datatype Row = Row(status: Status, lastSyncAt: Option<int>, lastSyncError: Option<string>, transactions: nat, accounts: nat)

  datatype SyncError =
    | CredentialAccess | CredentialsMissing | ProviderUnavailable
    | ProviderRequest(text: string) | AccountLookup | SyncFailure(text: string) | ConnectionPersistence

  /** What one attempt meets: the readings of the clock, in order, and the answers of database and provider. */
  datatype World = World(
    stamp: int, ranged: int, rangedAgain: int,
    credentials: Result<bool, string>, registered: bool,
    provided: Result<(), string>, accounts: Option<nat>, fetched: Result<nat, string>,
    cursor: string, saved: bool)

  /** Which provider messages ask the user to sign in again: Plaid's are compared without case, Teller's with. */
  predicate AsksForSignIn(p: Provider, text: string) {
    match p
    case Plaid => Contains(Lower(text), "login_required") || Contains(Lower(text), "reauth")
    case Teller => Contains(text, "mfa_required") || Contains(text, "Enrollment is not healthy")
  }

  function StatusFor(p: Provider, text: string): Status {
    if AsksForSignIn(p, text) then NeedsReauth else Faulty
  }

  // ----- one attempt, as a function

  /** The date range is computed once more inside `sync_bank_connection_transactions`. */
  function AskedAt(p: Provider, w: World): int {
    if p.Plaid? then w.rangedAgain else w.ranged
  }

  predicate Ready(w: World) {
    w.credentials == Success(true) && w.registered
  }

  /** The attempt gets as far as fetching transactions, and the provider answers. */
  predicate Fetches(w: World) {
    Ready(w) && w.provided.Success? && w.accounts.Some? && w.fetched.Success?
  }

  /** The provider message the attempt records on the connection, if it gets that far. */
  function Complaint(w: World): Option<string> {
    if !Ready(w) then None
    else if w.provided.Failure? then Some(w.provided.error)
    else if w.accounts.Some? && w.fetched.Failure? then Some(w.fetched.error)
    else None
  }

  /** The connection in memory after the attempt. */
  function Memory(p: Provider, row: Row, w: World): Row {
    if Fetches(w) then Row(Connected, Some(w.stamp), None, w.fetched.value, w.accounts.value)
    else if Complaint(w).Some?
    then row.(status := StatusFor(p, Complaint(w).value), lastSyncError := Complaint(w))
    else row
  }

  /** The stored connection after the attempt. */
  function Stored(p: Provider, row: Row, w: World): Row {
    if w.saved then Memory(p, row, w) else row
  }

  predicate Succeeds(p: Provider, w: World) {
    Fetches(w) && (p.Teller? ==> w.saved)
  }

  function ErrorOf(p: Provider, w: World): SyncError
    requires !Succeeds(p, w)
  {
    if w.credentials.Failure? then CredentialAccess
    else if !w.credentials.value then CredentialsMissing
    else if !w.registered then ProviderUnavailable
    else if w.provided.Failure? then ProviderRequest(w.provided.error)
    else if w.accounts.None? then AccountLookup
    else if w.fetched.Failure? then (if p.Plaid? then SyncFailure(w.fetched.error) else ProviderRequest(w.fetched.error))
    else ConnectionPersistence
  }

  // ----- one attempt, as the service runs it

  class ProviderConnection {
    const itemId: string
    var status: Status
    var lastSyncAt: Option<int>
    var lastSyncError: Option<string>
    var transactionCount: nat
    var accountCount: nat
    var syncCursor: Option<string>

    constructor (itemId: string, row: Row)
      ensures this.itemId == itemId && AsRow() == row
    {
      this.itemId := itemId;
      status, lastSyncAt, lastSyncError := row.status, row.lastSyncAt, row.lastSyncError;
      transactionCount, accountCount := row.transactions, row.accounts;
      syncCursor := None;
    }

    function AsRow(): Row
      reads this
    {
      Row(status, lastSyncAt, lastSyncError, transactionCount, accountCount)
    }

    method UpdateSyncInfo(transactions: nat, accounts: nat, now: int)
      modifies this
      ensures AsRow() == old(AsRow()).(lastSyncAt := Some(now), transactions := transactions, accounts := accounts)
      ensures syncCursor == old(syncCursor)
    {
      lastSyncAt := Some(now);
      transactionCount, accountCount := transactions, accounts;
    }
  }

  class ConnectionService {
    /** `provider_connections`, by item id. */
    var connections: map<string, Row>

    constructor ()
      ensures connections == map[]
    {
      connections := map[];
    }

    method SaveProviderConnection(c: ProviderConnection, works: bool) returns (ok: bool)
      modifies this
      ensures ok == works
      ensures connections == if ok then old(connections)[c.itemId := c.AsRow()] else old(connections)
    {
      if works {
        connections := connections[c.itemId := c.AsRow()];
      }
      ok := works;
    }

    method RecordConnectionError(c: ProviderConnection, text: string, status: Status, works: bool)
      modifies this, c
      ensures c.AsRow() == old(c.AsRow()).(status := status, lastSyncError := Some(text))
      ensures c.syncCursor == old(c.syncCursor)
      ensures connections == if works then old(connections)[c.itemId := c.AsRow()] else old(connections)
    {
      c.status := status;
      c.lastSyncError := Some(text);
      var _ := SaveProviderConnection(c, works);
    }

    /** The statements both providers run at the end of a successful fetch. */
    method Complete(c: ProviderConnection, w: World, now: int, transactions: nat, accounts: nat) returns (ok: bool)
      modifies this, c
      ensures c.AsRow() == Row(Connected, Some(w.stamp), None, transactions, accounts)
      ensures c.syncCursor == Some(w.cursor)
      ensures ok == w.saved
      ensures connections == if ok then old(connections)[c.itemId := c.AsRow()] else old(connections)
    {
      c.UpdateSyncInfo(transactions, accounts, now);
      c.syncCursor := Some(w.cursor);
      c.lastSyncAt := Some(w.stamp);
      c.status := Connected;
      c.lastSyncError := None;
      ok := SaveProviderConnection(c, w.saved);
    }

    method SyncProviderConnection(c: ProviderConnection, w: World) returns (r: Result<Window, SyncError>, asked: Option<Window>)
      modifies this, c
      ensures c.AsRow() == Memory(Plaid, old(c.AsRow()), w)
      ensures Fetches(w) || Complaint(w).Some? ==>
                connections == if w.saved then old(connections)[c.itemId := c.AsRow()] else old(connections)
      ensures !Fetches(w) && Complaint(w).None? ==> connections == old(connections)
      ensures c.syncCursor == if Fetches(w) then Some(w.cursor) else old(c.syncCursor)
      ensures r.Success? <==> Succeeds(Plaid, w)
      ensures !Succeeds(Plaid, w) ==> r == Failure(ErrorOf(Plaid, w))
      ensures r.Success? ==> r.value == DateRange(old(c.lastSyncAt), w.ranged)
      ensures Fetches(w) ==> asked == Some(DateRange(old(c.lastSyncAt), AskedAt(Plaid, w)))
    {
      asked := None;
      var reported := DateRange(c.lastSyncAt, w.ranged);
      if w.credentials.Failure? {
        return Failure(CredentialAccess), None;
      } else if !w.credentials.value {
        return Failure(CredentialsMissing), None;
      }
      if !w.registered {
        return Failure(ProviderUnavailable), None;
      }
      if w.provided.Failure? {
        RecordConnectionError(c, w.provided.error, StatusFor(Plaid, w.provided.error), w.saved);
        return Failure(ProviderRequest(w.provided.error)), None;
      }
      if w.accounts.None? {
        return Failure(AccountLookup), None;
      }
      asked := Some(DateRange(c.lastSyncAt, w.rangedAgain));
      if w.fetched.Failure? {
        RecordConnectionError(c, w.fetched.error, StatusFor(Plaid, w.fetched.error), w.saved);
        return Failure(SyncFailure(w.fetched.error)), asked;
      }
      var _ := Complete(c, w, w.rangedAgain, w.fetched.value, w.accounts.value);
      r := Success(reported);
    }

    method SyncTellerConnection(c: ProviderConnection, w: World) returns (r: Result<Window, SyncError>, asked: Option<Window>)
      modifies this, c
      ensures c.AsRow() == Memory(Teller, old(c.AsRow()), w)
      ensures Fetches(w) || Complaint(w).Some? ==>
                connections == if w.saved then old(connections)[c.itemId := c.AsRow()] else old(connections)
      ensures !Fetches(w) && Complaint(w).None? ==> connections == old(connections)
      ensures c.syncCursor == if Fetches(w) then Some(w.cursor) else old(c.syncCursor)
      ensures r.Success? <==> Succeeds(Teller, w)
      ensures !Succeeds(Teller, w) ==> r == Failure(ErrorOf(Teller, w))
      ensures r.Success? ==> Some(r.value) == asked
      ensures Fetches(w) ==> asked == Some(DateRange(old(c.lastSyncAt), AskedAt(Teller, w)))
    {
      asked := None;
      var range := DateRange(c.lastSyncAt, w.ranged);
      if w.credentials.Failure? {
        return Failure(CredentialAccess), None;
      } else if !w.credentials.value {
        return Failure(CredentialsMissing), None;
      }
      if !w.registered {
        return Failure(ProviderUnavailable), None;
      }
      if w.provided.Failure? {
        RecordConnectionError(c, w.provided.error, StatusFor(Teller, w.provided.error), w.saved);
        return Failure(ProviderRequest(w.provided.error)), None;
      }
      if w.accounts.None? {
        return Failure(AccountLookup), None;
      }
      asked := Some(range);
      if w.fetched.Failure? {
        RecordConnectionError(c, w.fetched.error, StatusFor(Teller, w.fetched.error), w.saved);
        return Failure(ProviderRequest(w.fetched.error)), asked;
      }
      var ok := Complete(c, w, w.rangedAgain, w.fetched.value, w.accounts.value);
      if !ok {
        return Failure(ConnectionPersistence), asked;
      }
      r := Success(range);
    }
  }

  /** A failed attempt never moves the stored `last_sync_at`, and moves the one in memory only when a
      Teller connection could not be saved at the very end. */
  lemma {:induction false} FailureKeepsLastSync(p: Provider, row: Row, w: World)
    requires !Succeeds(p, w)
    ensures Stored(p, row, w).lastSyncAt == row.lastSyncAt
    ensures Memory(p, row, w).lastSyncAt != row.lastSyncAt <==>
              p.Teller? && Fetches(w) && !w.saved && row.lastSyncAt != Some(w.stamp)
  {
  }

  /** A reported success is stored if and only if the last save worked or there was nothing new to store;
      Teller reports a success only when the save worked. */
  lemma {:induction false} SuccessIsStored(p: Provider, row: Row, w: World)
    requires Succeeds(p, w)
    ensures Stored(p, row, w) == Memory(p, row, w) <==> w.saved || Memory(p, row, w) == row
    ensures p.Teller? ==> w.saved
  {
  }

  /** A first fetch whose save fails: to Plaid's caller a success of which nothing is stored, to Teller's an
      error although the connection in memory has moved on. */
  lemma {:induction false} UnsavedFetch(row: Row, w: World)
    requires row == Row(Connected, None, None, 0, 0)
    requires w == World(0, 0, 0, Success(true), true, Success(()), Some(1), Success(5), "cursor", false)
    ensures Succeeds(Plaid, w) && Stored(Plaid, row, w) == row && Memory(Plaid, row, w) == Row(Connected, Some(0), None, 5, 1)
    ensures !Succeeds(Teller, w) && ErrorOf(Teller, w) == ConnectionPersistence
    ensures Stored(Teller, row, w) == row && Memory(Teller, row, w).lastSyncAt == Some(0)
  {
  }

  /** The window in days: `today` is the day of `now`, `synced` that of the last sync. It reaches two days behind
      the last sync, at most 1825 days, and 730 days without one; after a sync from the future it is one day. */
  lemma {:induction false} WindowByDays(l: int, now: int, synced: int, today: int)
    requires 86400 * today <= now < 86400 * (today + 1) && 86400 * synced <= l < 86400 * (synced + 1)
    ensures DateRange(None, now) == Window(today - 730, today)
    ensures DateRange(Some(l), now)
         == Window(if synced - 2 > today then today else if synced - 2 < today - 1825 then today - 1825 else synced - 2, today)
  {
    assert DateOf(now) == today && DateOf(l - SAFETY_MARGIN_DAYS * SECONDS_PER_DAY) == synced - 2;
  }

  /** After a fetch that was saved the next window overlaps by two days or more, or is 1825 days long. */
  lemma {:induction false} NextWindowOverlaps(p: Provider, w: World, lastSync: Option<int>, now: int)
    requires Fetches(w) && w.stamp <= AskedAt(p, w) <= now
    ensures var asked, next := DateRange(lastSync, AskedAt(p, w)), DateRange(Some(w.stamp), now);
            next.first <= asked.last - 2 || next.last - next.first == 1825
  {
    WindowByDays(w.stamp, now, DateOf(w.stamp), DateOf(now));
    assert DateOf(w.stamp) <= DateOf(AskedAt(p, w));
  }

  /** What a provider message does to a connection that could be saved. */
  lemma {:induction false} SignInAskedFor(p: Provider, row: Row, w: World, text: string)
    requires Ready(w) && w.saved && w.provided == Failure(text)
    ensures Stored(p, row, w).lastSyncError == Some(text) && Stored(p, row, w).status in {NeedsReauth, Faulty}
    ensures Stored(p, row, w).status == NeedsReauth <==>
            if p.Plaid? then Contains(Lower(text), "login_required") || Contains(Lower(text), "reauth")
            else Contains(text, "mfa_required") || Contains(text, "Enrollment is not healthy")
  {
  }

  // ----- runs: each attempt starts from the stored connection

  /** The stored connection after a run of attempts. */
  function RunRow(p: Provider, start: Row, run: seq<World>): Row {
    if run == [] then start
    else Stored(p, RunRow(p, start, run[..|run| - 1]), run[|run| - 1])
  }

  /** The windows whose transactions arrived, in order. */
  function RunWindows(p: Provider, start: Row, run: seq<World>): seq<Window> {
    if run == [] then []
    else
      var n := |run| - 1;
      RunWindows(p, start, run[..n]) +
      (if Fetches(run[n]) then [DateRange(RunRow(p, start, run[..n]).lastSyncAt, AskedAt(p, run[n]))] else [])
  }

  /** The clock never runs backwards, within an attempt or between two. */
  predicate Ticking(run: seq<World>) {
    && (forall i :: 0 <= i < |run| ==> run[i].stamp <= run[i].ranged <= run[i].rangedAgain)
    && (forall i, j :: 0 <= i < j < |run| ==> run[i].rangedAgain <= run[j].stamp)
  }

  /** `status` says connected exactly while no error is recorded, throughout every run. */
  lemma {:induction false} StatusTellsError(p: Provider, start: Row, run: seq<World>)
    requires start.status.Connected? <==> start.lastSyncError.None?
    ensures var row := RunRow(p, start, run); row.status.Connected? <==> row.lastSyncError.None?
  {
    if run != [] {
      StatusTellsError(p, start, run[..|run| - 1]);
    }
  }

  /** The stored `last_sync_at` is the stamp of the last attempt that fetched and was saved. */
  lemma {:induction false} LastSyncIsLastSaved(p: Provider, start: Row, run: seq<World>)
    requires start.lastSyncAt.None?
    ensures RunRow(p, start, run).lastSyncAt.None? <==> forall i :: 0 <= i < |run| ==> !(Fetches(run[i]) && run[i].saved)
    ensures RunRow(p, start, run).lastSyncAt.Some? ==>
              exists i :: 0 <= i < |run| && LastSaved(run, i) && RunRow(p, start, run).lastSyncAt == Some(run[i].stamp)
  {
    if run != [] {
      var n := |run| - 1;
      var front := run[..n];
      LastSyncIsLastSaved(p, start, front);
      if Fetches(run[n]) && run[n].saved {
        assert LastSaved(run, n);
      } else {
        if RunRow(p, start, front).lastSyncAt.Some? {
          var i :| 0 <= i < |front| && LastSaved(front, i) && RunRow(p, start, front).lastSyncAt == Some(front[i].stamp);
          assert LastSaved(run, i);
        }
        assert forall i :: 0 <= i < n ==> run[i] == front[i];
      }
    }
  }

  /** A run of nothing but reported successes leaves nothing stored if and only if no save worked, which
      can only be a run of Plaid attempts. */
  lemma {:induction false} SuccessesMayStoreNothing(p: Provider, start: Row, run: seq<World>)
    requires start.lastSyncAt.None? && forall i :: 0 <= i < |run| ==> Succeeds(p, run[i])
    ensures RunRow(p, start, run) == start <==> forall i :: 0 <= i < |run| ==> !run[i].saved
    ensures p.Teller? && run != [] ==> RunRow(p, start, run) != start
  {
    LastSyncIsLastSaved(p, start, run);
    if forall i :: 0 <= i < |run| ==> !run[i].saved {
      NothingSaved(p, start, run);
    }
  }

  lemma {:induction false} NothingSaved(p: Provider, start: Row, run: seq<World>)
    requires forall i :: 0 <= i < |run| ==> !run[i].saved
    ensures RunRow(p, start, run) == start
  {
    if run != [] {
      NothingSaved(p, start, run[..|run| - 1]);
    }
  }

  predicate LastSaved(run: seq<World>, i: int)
    requires 0 <= i < |run|
  {
    Fetches(run[i]) && run[i].saved && forall j :: i < j < |run| ==> !(Fetches(run[j]) && run[j].saved)
  }

  // ----- which days a sequence of windows covers

  ghost predicate Covered(ws: seq<Window>, day: int) {
    exists i :: 0 <= i < |ws| && ws[i].first <= day <= ws[i].last
  }

  ghost predicate Unbroken(ws: seq<Window>)
    requires |ws| > 0
  {
    forall day :: ws[0].first <= day <= ws[|ws| - 1].last ==> Covered(ws, day)
  }

  /** No window is inverted, and none ends before the one before it. */
  predicate Lasting(ws: seq<Window>) {
    && (forall i :: 0 <= i < |ws| ==> ws[i].first <= ws[i].last)
    && (forall i, j :: 0 <= i <= j < |ws| ==> ws[i].last <= ws[j].last)
  }

  /** Nor does any begin earlier. */
  predicate Ascending(ws: seq<Window>) {
    Lasting(ws) && forall i, j :: 0 <= i <= j < |ws| ==> ws[i].first <= ws[j].first
  }

  predicate Touching(ws: seq<Window>) {
    forall i :: 0 < i < |ws| ==> ws[i].first <= ws[i - 1].last + 1
  }

  /** What each window leaves off, some later one takes up. */
  predicate Reconnected(ws: seq<Window>) {
    forall i :: 0 < i < |ws| ==> TakenUp(ws, i)
  }

  predicate TakenUp(ws: seq<Window>, i: int)
    requires 0 < i < |ws|
  {
    exists j :: i <= j < |ws| && ws[j].first <= ws[i - 1].last + 1
  }

  lemma {:induction false} FirstToReach(ws: seq<Window>, day: int, n: nat) returns (i: nat)
    requires n < |ws| && day <= ws[n].last
    ensures i <= n && day <= ws[i].last && (i > 0 ==> ws[i - 1].last < day)
  {
    if n > 0 && day <= ws[n - 1].last {
      i := FirstToReach(ws, day, n - 1);
    } else {
      i := n;
    }
  }

  lemma {:induction false} UnbrokenIffReconnected(ws: seq<Window>)
    requires |ws| > 0 && Lasting(ws)
    ensures Unbroken(ws) <==> Reconnected(ws)
  {
    if Unbroken(ws) {
      forall i | 0 < i < |ws|
        ensures TakenUp(ws, i)
      {
        var next := ws[i - 1].last + 1;
        if next <= ws[|ws| - 1].last {
          assert Covered(ws, next);
        } else {
          assert ws[i].first <= ws[i].last <= ws[|ws| - 1].last;
        }
      }
    }
    if Reconnected(ws) {
      forall day | ws[0].first <= day <= ws[|ws| - 1].last
        ensures Covered(ws, day)
      {
        var i := FirstToReach(ws, day, |ws| - 1);
        if i > 0 {
          assert TakenUp(ws, i);
        }
      }
    }
  }

  lemma {:induction false} TouchingWhenAscending(ws: seq<Window>)
    ensures Touching(ws) ==> Reconnected(ws)
    ensures Ascending(ws) && Reconnected(ws) ==> Touching(ws)
  {
    if Touching(ws) {
      forall i | 0 < i < |ws|
        ensures TakenUp(ws, i)
      {
        assert ws[i].first <= ws[i - 1].last + 1;
      }
    }
    if Ascending(ws) && Reconnected(ws) {
      forall i | 0 < i < |ws|
        ensures ws[i].first <= ws[i - 1].last + 1
      {
        assert TakenUp(ws, i);
      }
    }
  }

  // ----- coverage of runs

  /** How far back the next attempt can reach, in days. */
  function Reach(row: Row): int {
    if row.lastSyncAt.None? then FIRST_SYNC_DAYS else MAX_SYNC_DAYS
  }

  /** No fetch comes later after the one before it than the next window can reach back. */
  predicate InTime(p: Provider, start: Row, run: seq<World>) {
    run == [] ||
    var n := |run| - 1;
    var ws := RunWindows(p, start, run[..n]);
    && InTime(p, start, run[..n])
    && (Fetches(run[n]) && ws != [] ==>
          DateOf(AskedAt(p, run[n])) - ws[|ws| - 1].last <= Reach(RunRow(p, start, run[..n])) + 1)
  }

  /** Less than two years pass between the start of an attempt and its fetch. */
  predicate Brief(p: Provider, run: seq<World>) {
    forall i :: 0 <= i < |run| ==>
      DateOf(AskedAt(p, run[i])) - DateOf(run[i].stamp) <= FIRST_SYNC_DAYS - SAFETY_MARGIN_DAYS
  }

  /** How the latest window `w` stands relative to the stored instant and the clock. */
  predicate InReach(row: Row, w: Window, clock: int) {
    && w.last <= DateOf(clock)
    && match row.lastSyncAt
       case None => w.first == w.last - FIRST_SYNC_DAYS
       case Some(l) => l <= clock && DateOf(l) <= w.last && w.first <= DateRange(Some(l), w.last * SECONDS_PER_DAY).first
  }

  predicate Positioned(row: Row, ws: seq<Window>, clock: int) {
    Ascending(ws) && if ws == [] then row.lastSyncAt.None? else InReach(row, ws[|ws| - 1], clock)
  }

  /** What holds however long an attempt takes. */
  predicate Timed(row: Row, ws: seq<Window>, clock: int) {
    && Lasting(ws)
    && (ws != [] ==> ws[|ws| - 1].last <= DateOf(clock))
    && (row.lastSyncAt.Some? ==> ws != [] && DateOf(row.lastSyncAt.value) <= ws[|ws| - 1].last)
  }

  lemma {:induction false} DatesFollowInstants(a: int, b: int)
    requires a <= b
    ensures DateOf(a) <= DateOf(b)
  {
  }

  lemma {:induction false} MarginIsDays(instant: int)
    ensures DateOf(instant - SAFETY_MARGIN_DAYS * SECONDS_PER_DAY) == DateOf(instant) - SAFETY_MARGIN_DAYS
  {
  }

  /** The next window starts no earlier than the last one did, and touches it when asked for in time. */
  lemma {:induction false} NextWindow(row: Row, ws: seq<Window>, clock: int, asked: int)
    requires ws != [] && Positioned(row, ws, clock) && clock <= asked
    ensures var w, next := ws[|ws| - 1], DateRange(row.lastSyncAt, asked);
            && w.first <= next.first && w.last <= next.last
            && (next.first <= w.last + 1 <==> DateOf(asked) - w.last <= Reach(row) + 1)
  {
  }

  lemma {:induction false} AscendingExtends(ws: seq<Window>, w: Window)
    requires Ascending(ws) && w.first <= w.last
    requires ws != [] ==> ws[|ws| - 1].first <= w.first && ws[|ws| - 1].last <= w.last
    ensures Ascending(ws + [w])
  {
  }

  /** The stored instant, before or after the attempt, still lets the next window reach where this one began. */
  lemma {:induction false} FetchKeepsReach(p: Provider, row: Row, ws: seq<Window>, clock: int, w: World)
    requires Positioned(row, ws, clock) && clock <= w.stamp <= w.ranged <= w.rangedAgain && Fetches(w)
    requires DateOf(AskedAt(p, w)) - DateOf(w.stamp) <= FIRST_SYNC_DAYS - SAFETY_MARGIN_DAYS
    ensures InReach(Stored(p, row, w), DateRange(row.lastSyncAt, AskedAt(p, w)), w.rangedAgain)
  {
    var asked := AskedAt(p, w);
    DatesFollowInstants(w.stamp, asked);
    DatesFollowInstants(asked, w.rangedAgain);
    MarginIsDays(w.stamp);
    assert DateOf(DateOf(asked) * SECONDS_PER_DAY) == DateOf(asked);
    if row.lastSyncAt.Some? {
      MarginIsDays(row.lastSyncAt.value);
      DatesFollowInstants(row.lastSyncAt.value, w.stamp);
    }
  }

  lemma {:induction false} FetchKeepsPosition(p: Provider, row: Row, ws: seq<Window>, clock: int, w: World)
    requires Positioned(row, ws, clock) && clock <= w.stamp <= w.ranged <= w.rangedAgain && Fetches(w)
    requires DateOf(AskedAt(p, w)) - DateOf(w.stamp) <= FIRST_SYNC_DAYS - SAFETY_MARGIN_DAYS
    ensures Positioned(Stored(p, row, w), ws + [DateRange(row.lastSyncAt, AskedAt(p, w))], w.rangedAgain)
  {
    if ws != [] {
      NextWindow(row, ws, clock, AskedAt(p, w));
    }
    AscendingExtends(ws, DateRange(row.lastSyncAt, AskedAt(p, w)));
    FetchKeepsReach(p, row, ws, clock, w);
  }

  lemma {:induction false} LaterClock(row: Row, ws: seq<Window>, clock: int, later: int)
    requires Positioned(row, ws, clock) && clock <= later
    ensures Positioned(row, ws, later)
  {
  }

  lemma {:induction false} AttemptKeepsPosition(
    p: Provider, row: Row, ws: seq<Window>, w: World, ws': seq<Window>, clock: int)
    requires Positioned(row, ws, w.stamp) && w.stamp <= w.ranged <= w.rangedAgain <= clock
    requires DateOf(AskedAt(p, w)) - DateOf(w.stamp) <= FIRST_SYNC_DAYS - SAFETY_MARGIN_DAYS
    requires ws' == if Fetches(w) then ws + [DateRange(row.lastSyncAt, AskedAt(p, w))] else ws
    ensures Positioned(Stored(p, row, w), ws', clock)
  {
    if Fetches(w) {
      FetchKeepsPosition(p, row, ws, w.stamp, w);
      LaterClock(Stored(p, row, w), ws', w.rangedAgain, clock);
    } else {
      LaterClock(row, ws, w.stamp, clock);
    }
  }

  lemma {:induction false} RunIsPositioned(p: Provider, start: Row, run: seq<World>, clock: int)
    requires start.lastSyncAt.None? && Ticking(run) && Brief(p, run)
    requires forall i :: 0 <= i < |run| ==> run[i].rangedAgain <= clock
    ensures Positioned(RunRow(p, start, run), RunWindows(p, start, run), clock)
  {
    if run != [] {
      var n := |run| - 1;
      var front := run[..n];
      RunIsPositioned(p, start, front, run[n].stamp);
      AttemptKeepsPosition(
        p, RunRow(p, start, front), RunWindows(p, start, front), run[n], RunWindows(p, start, run), clock);
    }
  }

  lemma {:induction false} AttemptKeepsTimed(
    p: Provider, row: Row, ws: seq<Window>, w: World, ws': seq<Window>, clock: int)
    requires Timed(row, ws, w.stamp) && w.stamp <= w.ranged <= w.rangedAgain <= clock
    requires ws' == if Fetches(w) then ws + [DateRange(row.lastSyncAt, AskedAt(p, w))] else ws
    ensures Timed(Stored(p, row, w), ws', clock)
  {
    DatesFollowInstants(w.stamp, AskedAt(p, w));
    DatesFollowInstants(AskedAt(p, w), clock);
  }

  lemma {:induction false} RunIsTimed(p: Provider, start: Row, run: seq<World>, clock: int)
    requires start.lastSyncAt.None? && Ticking(run)
    requires forall i :: 0 <= i < |run| ==> run[i].rangedAgain <= clock
    ensures Timed(RunRow(p, start, run), RunWindows(p, start, run), clock)
  {
    if run != [] {
      var n := |run| - 1;
      var front := run[..n];
      RunIsTimed(p, start, front, run[n].stamp);
      AttemptKeepsTimed(
        p, RunRow(p, start, front), RunWindows(p, start, front), run[n], RunWindows(p, start, run), clock);
    }
  }

  /** The next window touches the last one exactly when it is asked for in time. */
  lemma {:induction false} NextTouches(row: Row, ws: seq<Window>, clock: int, asked: int)
    requires ws != [] && Timed(row, ws, clock) && clock <= asked
    ensures DateRange(row.lastSyncAt, asked).first <= ws[|ws| - 1].last + 1
       <==> DateOf(asked) - ws[|ws| - 1].last <= Reach(row) + 1
  {
    DatesFollowInstants(clock, asked);
    if row.lastSyncAt.Some? {
      MarginIsDays(row.lastSyncAt.value);
    }
  }

  lemma {:induction false} TouchingIffInTime(p: Provider, start: Row, run: seq<World>)
    requires start.lastSyncAt.None? && Ticking(run)
    ensures Touching(RunWindows(p, start, run)) <==> InTime(p, start, run)
  {
    if run != [] {
      var n := |run| - 1;
      var front, w := run[..n], run[n];
      var row, ws := RunRow(p, start, front), RunWindows(p, start, front);
      TouchingIffInTime(p, start, front);
      if Fetches(w) {
        var next := DateRange(row.lastSyncAt, AskedAt(p, w));
        assert RunWindows(p, start, run) == ws + [next];
        TouchingExtends(ws, next);
        if ws != [] {
          RunIsTimed(p, start, front, w.stamp);
          NextTouches(row, ws, w.stamp, AskedAt(p, w));
        }
      } else {
        assert RunWindows(p, start, run) == ws;
      }
    }
  }

  lemma {:induction false} TouchingExtends(ws: seq<Window>, w: Window)
    ensures Touching(ws + [w]) <==> Touching(ws) && (ws != [] ==> w.first <= ws[|ws| - 1].last + 1)
  {
    var all := ws + [w];
    if Touching(all) {
      forall i | 0 < i < |ws|
        ensures ws[i].first <= ws[i - 1].last + 1
      {
        assert all[i] == ws[i] && all[i - 1] == ws[i - 1];
      }
      if ws != [] {
        assert all[|ws|] == w && all[|ws| - 1] == ws[|ws| - 1];
      }
    }
  }

  /** Over any run, the fetched days form one unbroken range from 730 days before the first fetch to the
      latest fetch if and only if whatever one window leaves off a later one takes up, and they do whenever
      no pause was longer than the next window reaches back: 1825 days once a sync is stored, 730 before.
      Unless some attempt took two years, that is also the only way, and no day outside is fetched. */
  lemma {:induction false} RunsCover(p: Provider, start: Row, run: seq<World>)
    requires start.lastSyncAt.None? && Ticking(run) && RunWindows(p, start, run) != []
    ensures var ws := RunWindows(p, start, run);
            && ws[0].first == ws[0].last - FIRST_SYNC_DAYS
            && (Unbroken(ws) <==> Reconnected(ws))
            && (InTime(p, start, run) ==> Unbroken(ws))
            && (Brief(p, run) ==> (Unbroken(ws) ==> InTime(p, start, run)))
            && (Brief(p, run) ==> forall day :: Covered(ws, day) ==> ws[0].first <= day <= ws[|ws| - 1].last)
  {
    var clock := run[|run| - 1].rangedAgain;
    var ws := RunWindows(p, start, run);
    RunIsTimed(p, start, run, clock);
    UnbrokenIffReconnected(ws);
    TouchingIffInTime(p, start, run);
    TouchingWhenAscending(ws);
    FirstWindow(p, start, run);
    if Brief(p, run) {
      RunIsPositioned(p, start, run, clock);
    }
  }

  lemma {:induction false} FirstWindow(p: Provider, start: Row, run: seq<World>)
    requires start.lastSyncAt.None?
    ensures RunWindows(p, start, run) == [] ==> RunRow(p, start, run).lastSyncAt.None?
    ensures var ws := RunWindows(p, start, run); ws != [] ==> ws[0].first == ws[0].last - FIRST_SYNC_DAYS
  {
    if run != [] {
      FirstWindow(p, start, run[..|run| - 1]);
    }
  }
}
