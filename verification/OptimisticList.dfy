/** The optimistic create, update and delete helpers: several calls at once over one shared list. */
module OptimisticList {
  datatype Item = Item(id: string, content: int)

  /** The list with every item of that id replaced by what `change` makes of it. */
  function Mapped(items: seq<Item>, id: string, change: Item -> Item): (r: seq<Item>)
    ensures |r| == |items|
    ensures forall i :: 0 <= i < |items| ==> r[i] == if items[i].id == id then change(items[i]) else items[i]
  {
    if items == [] then []
    else
      var n := |items| - 1;
      Mapped(items[..n], id, change) + [if items[n].id == id then change(items[n]) else items[n]]
  }

  /** The list without the items of that id. */
  function Filtered(items: seq<Item>, id: string): (r: seq<Item>)
    ensures forall x :: x in r <==> x in items && x.id != id
  {
    if items == [] then []
    else Filtered(items[..|items| - 1], id) + (if items[|items| - 1].id != id then [items[|items| - 1]] else [])
  }

  // ----- one step of one call

  /** What a call does to the list before or after waiting for the server; `Changed` begins an update and
      `Confirmed` ends it, `Removed` begins a delete. */
  datatype Event =
    | Started(temp: Item)
    | Created(temp: Item, created: Item)
    | CreateFailed(temp: Item)
    | Changed(id: string, change: Item -> Item)
    | Confirmed(id: string, updated: Item)
    | Removed(id: string)

  function Apply(items: seq<Item>, e: Event): seq<Item> {
    match e
    case Started(temp) => items + [temp]
    case Created(temp, created) => Mapped(items, temp.id, _ => created)
    case CreateFailed(temp) => Filtered(items, temp.id)
    case Changed(id, change) => Mapped(items, id, change)
    case Confirmed(id, updated) => Mapped(items, id, _ => updated)
    case Removed(id) => Filtered(items, id)
  }

  function Replay(items: seq<Item>, events: seq<Event>): seq<Item> {
    if events == [] then items else Apply(Replay(items, events[..|events| - 1]), events[|events| - 1])
  }

  /** `Failed(k)` is the failure of the update or delete that step `k` began: the snapshot that step took
      becomes the list again. */
  datatype Step = Done(event: Event) | Failed(since: nat)

  /** The steps whose effect is still in the list: a failure undoes everything since its call began,
      whoever did it. */
  function Surviving(steps: seq<Step>): seq<Event> {
    if steps == [] then []
    else
      var n := |steps| - 1;
      match steps[n]
      case Done(e) => Surviving(steps[..n]) + [e]
      case Failed(since) => if since < n then Surviving(steps[..since]) else Surviving(steps[..n])
  }

  predicate WellTimed(steps: seq<Step>) {
    forall n :: 0 <= n < |steps| && steps[n].Failed? ==> steps[n].since < n
  }

  // ----- the helpers over the shared list

  class SharedList {
    var items: seq<Item>

    constructor (items: seq<Item>)
      ensures this.items == items
    {
      this.items := items;
    }

    method Handle(e: Event)
      modifies this
      ensures items == Apply(old(items), e)
    {
      match e
      case Started(temp) => items := items + [temp];
      case Created(temp, created) => items := Mapped(items, temp.id, _ => created);
      case CreateFailed(temp) => items := Filtered(items, temp.id);
      case Changed(id, change) => items := Mapped(items, id, change);
      case Confirmed(id, updated) => items := Mapped(items, id, _ => updated);
      case Removed(id) => items := Filtered(items, id);
    }

    /** Any interleaving of calls; `snapshots` are the lists the calls captured when they began. */
    method Play(steps: seq<Step>)
      requires WellTimed(steps)
      modifies this
      ensures items == Replay(old(items), Surviving(steps))
    {
      var snapshots: seq<seq<Item>> := [];
      ghost var start := items;
      for n := 0 to |steps|
        invariant Captured(start, steps, n, snapshots) && AfterSteps(start, steps, n, items)
      {
        ghost var before, captured := items, snapshots;
        snapshots := snapshots + [items];
        match steps[n] {
          case Done(e) => Handle(e);
          case Failed(since) => items := snapshots[since];
        }
        PlayStep(start, steps, n, captured, before, items);
      }
      assert steps[..|steps|] == steps;
    }
  }

  ghost predicate AfterSteps(start: seq<Item>, steps: seq<Step>, n: nat, items: seq<Item>) {
    n <= |steps| && items == Replay(start, Surviving(steps[..n]))
  }

  ghost predicate Captured(start: seq<Item>, steps: seq<Step>, n: nat, snapshots: seq<seq<Item>>) {
    |snapshots| == n && forall k :: 0 <= k < n ==> AfterSteps(start, steps, k, snapshots[k])
  }

  lemma {:induction false} PlayStep(
    start: seq<Item>, steps: seq<Step>, n: nat, snapshots: seq<seq<Item>>, items: seq<Item>, next: seq<Item>)
    requires WellTimed(steps) && n < |steps|
    requires Captured(start, steps, n, snapshots) && AfterSteps(start, steps, n, items)
    requires next == match steps[n] case Done(e) => Apply(items, e) case Failed(since) => snapshots[since]
    ensures Captured(start, steps, n + 1, snapshots + [items]) && AfterSteps(start, steps, n + 1, next)
  {
    SurvivingStep(steps, n);
    if steps[n].Done? {
      ReplayStep(start, Surviving(steps[..n]), steps[n].event);
    } else {
      assert AfterSteps(start, steps, steps[n].since, snapshots[steps[n].since]);
    }
  }

  lemma {:induction false} SurvivingStep(steps: seq<Step>, n: nat)
    requires WellTimed(steps) && n < |steps|
    ensures steps[n].Done? ==> Surviving(steps[..n + 1]) == Surviving(steps[..n]) + [steps[n].event]
    ensures steps[n].Failed? ==> Surviving(steps[..n + 1]) == Surviving(steps[..steps[n].since])
  {
    var front := steps[..n + 1];
    assert front[..n] == steps[..n] && front[n] == steps[n];
    if steps[n].Failed? {
      assert front[..steps[n].since] == steps[..steps[n].since];
    }
  }

  lemma {:induction false} ReplayStep(items: seq<Item>, events: seq<Event>, e: Event)
    ensures Replay(items, events + [e]) == Apply(Replay(items, events), e)
  {
    assert (events + [e])[..|events|] == events;
  }

  // ----- what the user should see

  /** A create call: the items it currently contributes, in the place it was started. */
  datatype Call = Call(temp: Item, inFlight: bool, shown: seq<Item>)

  datatype View = View(base: seq<Item>, calls: seq<Call>)

  function Shown(calls: seq<Call>): seq<Item> {
    if calls == [] then [] else Shown(calls[..|calls| - 1]) + calls[|calls| - 1].shown
  }

  /** The base list followed, in start order, by what each create call contributes. */
  function List(v: View): seq<Item> {
    v.base + Shown(v.calls)
  }

  predicate Awaits(c: Call, temp: Item) {
    c.inFlight && c.temp.id == temp.id
  }

  function Settled(calls: seq<Call>, temp: Item, shown: seq<Item>): seq<Call> {
    seq(|calls|, k requires 0 <= k < |calls| => if Awaits(calls[k], temp) then Call(calls[k].temp, false, shown) else calls[k])
  }

  function MappedCalls(calls: seq<Call>, id: string, change: Item -> Item): seq<Call> {
    seq(|calls|, k requires 0 <= k < |calls| => calls[k].(shown := Mapped(calls[k].shown, id, change)))
  }

  function FilteredCalls(calls: seq<Call>, id: string): seq<Call> {
    seq(|calls|, k requires 0 <= k < |calls| => calls[k].(shown := Filtered(calls[k].shown, id)))
  }

  /** The intended effect: a create call touches its own place, an update or delete the items it names. */
  function Advance(v: View, e: Event): View {
    match e
    case Started(temp) => v.(calls := v.calls + [Call(temp, true, [temp])])
    case Created(temp, created) => v.(calls := Settled(v.calls, temp, [created]))
    case CreateFailed(temp) => v.(calls := Settled(v.calls, temp, []))
    case Changed(id, change) => View(Mapped(v.base, id, change), MappedCalls(v.calls, id, change))
    case Confirmed(id, updated) => View(Mapped(v.base, id, _ => updated), MappedCalls(v.calls, id, _ => updated))
    case Removed(id) => View(Filtered(v.base, id), FilteredCalls(v.calls, id))
  }

  function ViewAfter(v: View, events: seq<Event>): View {
    if events == [] then v else Advance(ViewAfter(v, events[..|events| - 1]), events[|events| - 1])
  }

  // ----- temporary ids are told apart from all others

  /** Create calls use temporary ids; the server, updates and deletes use others. */
  ghost predicate Proper(temporary: string -> bool, e: Event) {
    match e
    case Started(temp) => temporary(temp.id)
    case Created(temp, created) => temporary(temp.id) && !temporary(created.id)
    case CreateFailed(temp) => temporary(temp.id)
    case Changed(id, change) => !temporary(id) && forall x: Item :: x.id == id ==> !temporary(change(x).id)
    case Confirmed(id, updated) => !temporary(id) && !temporary(updated.id)
    case Removed(id) => !temporary(id)
  }

  predicate NoneTemporary(temporary: string -> bool, items: seq<Item>) {
    forall x :: x in items ==> !temporary(x.id)
  }

  predicate TracksCall(temporary: string -> bool, c: Call) {
    temporary(c.temp.id) && if c.inFlight then c.shown == [c.temp] else NoneTemporary(temporary, c.shown)
  }

  /** A temporary id is in the list only as the item of the call in flight that made it, and no two calls
      ever made the same one. */
  ghost predicate Tracked(temporary: string -> bool, v: View) {
    && NoneTemporary(temporary, v.base)
    && (forall k :: 0 <= k < |v.calls| ==> TracksCall(temporary, v.calls[k]))
    && (forall j, k :: 0 <= j < k < |v.calls| ==> v.calls[j].temp.id != v.calls[k].temp.id)
  }

  /** A start uses a temporary id no call used before. */
  ghost predicate Fresh(v: View, e: Event) {
    e.Started? ==> forall k :: 0 <= k < |v.calls| ==> v.calls[k].temp.id != e.temp.id
  }

  // ----- map and filter over concatenations

  lemma {:induction false} MappedAppends(a: seq<Item>, b: seq<Item>, id: string, change: Item -> Item)
    ensures Mapped(a + b, id, change) == Mapped(a, id, change) + Mapped(b, id, change)
  {
  }

  lemma {:induction false} FilteredAppends(a: seq<Item>, b: seq<Item>, id: string)
    ensures Filtered(a + b, id) == Filtered(a, id) + Filtered(b, id)
  {
    if b == [] {
      assert a + b == a;
    } else {
      var n := |b| - 1;
      assert (a + b)[..|a + b| - 1] == a + b[..n];
      FilteredAppends(a, b[..n], id);
    }
  }

  predicate NotUsed(items: seq<Item>, id: string) {
    forall x :: x in items ==> x.id != id
  }

  lemma {:induction false} FilteredKeepsUnused(items: seq<Item>, id: string)
    requires NotUsed(items, id)
    ensures Filtered(items, id) == items
  {
    if items != [] {
      var n := |items| - 1;
      assert items[n] in items && items == items[..n] + [items[n]];
      FilteredKeepsUnused(items[..n], id);
    }
  }

  lemma {:induction false} MappedKeepsUnused(items: seq<Item>, id: string, change: Item -> Item)
    requires NotUsed(items, id)
    ensures Mapped(items, id, change) == items
  {
  }

  lemma {:induction false} SameShown(a: seq<Call>, b: seq<Call>)
    requires |a| == |b| && forall k :: 0 <= k < |a| ==> a[k].shown == b[k].shown
    ensures Shown(a) == Shown(b)
  {
    if a != [] {
      SameShown(a[..|a| - 1], b[..|b| - 1]);
    }
  }

  lemma {:induction false} MappedShown(calls: seq<Call>, id: string, change: Item -> Item)
    ensures Mapped(Shown(calls), id, change) == Shown(MappedCalls(calls, id, change))
  {
    if calls != [] {
      var n := |calls| - 1;
      MappedShown(calls[..n], id, change);
      MappedAppends(Shown(calls[..n]), calls[n].shown, id, change);
      assert MappedCalls(calls, id, change)[..n] == MappedCalls(calls[..n], id, change);
    }
  }

  lemma {:induction false} FilteredShown(calls: seq<Call>, id: string)
    ensures Filtered(Shown(calls), id) == Shown(FilteredCalls(calls, id))
  {
    if calls != [] {
      var n := |calls| - 1;
      FilteredShown(calls[..n], id);
      FilteredAppends(Shown(calls[..n]), calls[n].shown, id);
      assert FilteredCalls(calls, id)[..n] == FilteredCalls(calls[..n], id);
    }
  }

  // ----- one event

  lemma {:induction false} OneCallMapped(temporary: string -> bool, c: Call, temp: Item, created: Item)
    requires TracksCall(temporary, c) && temporary(temp.id)
    ensures Mapped(c.shown, temp.id, _ => created) == if Awaits(c, temp) then [created] else c.shown
  {
    if !c.inFlight {
      assert NotUsed(c.shown, temp.id);
    }
  }

  lemma {:induction false} OneCallFiltered(temporary: string -> bool, c: Call, temp: Item)
    requires TracksCall(temporary, c) && temporary(temp.id)
    ensures Filtered(c.shown, temp.id) == if Awaits(c, temp) then [] else c.shown
  {
    if !c.inFlight {
      FilteredKeepsUnused(c.shown, temp.id);
    } else {
      assert c.shown[..0] == [];
    }
  }

  lemma {:induction false} CreatedSettles(temporary: string -> bool, v: View, temp: Item, created: Item)
    requires Tracked(temporary, v) && temporary(temp.id)
    ensures Mapped(List(v), temp.id, _ => created) == List(v.(calls := Settled(v.calls, temp, [created])))
  {
    MappedAppends(v.base, Shown(v.calls), temp.id, _ => created);
    MappedKeepsUnused(v.base, temp.id, _ => created);
    MappedShown(v.calls, temp.id, _ => created);
    forall k | 0 <= k < |v.calls|
      ensures MappedCalls(v.calls, temp.id, _ => created)[k].shown == Settled(v.calls, temp, [created])[k].shown
    {
      OneCallMapped(temporary, v.calls[k], temp, created);
    }
    SameShown(MappedCalls(v.calls, temp.id, _ => created), Settled(v.calls, temp, [created]));
  }

  lemma {:induction false} FailedSettles(temporary: string -> bool, v: View, temp: Item)
    requires Tracked(temporary, v) && temporary(temp.id)
    ensures Filtered(List(v), temp.id) == List(v.(calls := Settled(v.calls, temp, [])))
  {
    FilteredAppends(v.base, Shown(v.calls), temp.id);
    FilteredKeepsUnused(v.base, temp.id);
    FilteredShown(v.calls, temp.id);
    forall k | 0 <= k < |v.calls|
      ensures FilteredCalls(v.calls, temp.id)[k].shown == Settled(v.calls, temp, [])[k].shown
    {
      OneCallFiltered(temporary, v.calls[k], temp);
    }
    SameShown(FilteredCalls(v.calls, temp.id), Settled(v.calls, temp, []));
  }

  lemma {:induction false} ChangeSpreads(v: View, id: string, change: Item -> Item)
    ensures Mapped(List(v), id, change) == List(View(Mapped(v.base, id, change), MappedCalls(v.calls, id, change)))
  {
    MappedAppends(v.base, Shown(v.calls), id, change);
    MappedShown(v.calls, id, change);
  }

  /** Every event moves the shared list exactly as intended, whatever the other calls are doing; the
      answer to a create whose start was undone changes nothing. */
  lemma {:induction false} EventIsFaithful(temporary: string -> bool, v: View, e: Event)
    requires Tracked(temporary, v) && Proper(temporary, e)
    ensures Apply(List(v), e) == List(Advance(v, e))
  {
    match e
    case Started(temp) =>
      assert (v.calls + [Call(temp, true, [temp])])[..|v.calls|] == v.calls;
    case Created(temp, created) =>
      CreatedSettles(temporary, v, temp, created);
    case CreateFailed(temp) =>
      FailedSettles(temporary, v, temp);
    case Changed(id, change) =>
      ChangeSpreads(v, id, change);
    case Confirmed(id, updated) =>
      ChangeSpreads(v, id, _ => updated);
    case Removed(id) =>
      FilteredAppends(v.base, Shown(v.calls), id);
      FilteredShown(v.calls, id);
  }

  lemma {:induction false} MappedStaysPlain(
    temporary: string -> bool, items: seq<Item>, id: string, change: Item -> Item)
    requires NoneTemporary(temporary, items) && forall x: Item :: x.id == id ==> !temporary(change(x).id)
    ensures NoneTemporary(temporary, Mapped(items, id, change))
  {
    var r := Mapped(items, id, change);
    forall i | 0 <= i < |r|
      ensures !temporary(r[i].id)
    {
      assert items[i] in items;
    }
  }

  lemma {:induction false} ChangeKeepsCall(temporary: string -> bool, c: Call, id: string, change: Item -> Item)
    requires TracksCall(temporary, c) && !temporary(id) && forall x: Item :: x.id == id ==> !temporary(change(x).id)
    ensures TracksCall(temporary, c.(shown := Mapped(c.shown, id, change)))
  {
    if !c.inFlight {
      MappedStaysPlain(temporary, c.shown, id, change);
    }
  }

  lemma {:induction false} RemovalKeepsCall(temporary: string -> bool, c: Call, id: string)
    requires TracksCall(temporary, c) && !temporary(id)
    ensures TracksCall(temporary, c.(shown := Filtered(c.shown, id)))
  {
    if c.inFlight {
      FilteredKeepsUnused(c.shown, id);
    }
  }

  lemma {:induction false} ChangeKeepsTracked(temporary: string -> bool, v: View, id: string, change: Item -> Item)
    requires Tracked(temporary, v) && !temporary(id) && forall x: Item :: x.id == id ==> !temporary(change(x).id)
    ensures Tracked(temporary, View(Mapped(v.base, id, change), MappedCalls(v.calls, id, change)))
  {
    MappedStaysPlain(temporary, v.base, id, change);
    forall k | 0 <= k < |v.calls|
      ensures TracksCall(temporary, MappedCalls(v.calls, id, change)[k])
    {
      ChangeKeepsCall(temporary, v.calls[k], id, change);
    }
  }

  lemma {:induction false} RemovalKeepsTracked(temporary: string -> bool, v: View, id: string)
    requires Tracked(temporary, v) && !temporary(id)
    ensures Tracked(temporary, View(Filtered(v.base, id), FilteredCalls(v.calls, id)))
  {
    forall k | 0 <= k < |v.calls|
      ensures TracksCall(temporary, FilteredCalls(v.calls, id)[k])
    {
      RemovalKeepsCall(temporary, v.calls[k], id);
    }
  }

  lemma {:induction false} EventKeepsTracked(temporary: string -> bool, v: View, e: Event)
    requires Tracked(temporary, v) && Proper(temporary, e) && Fresh(v, e)
    ensures Tracked(temporary, Advance(v, e))
  {
    match e
    case Started(temp) =>
    case Created(temp, created) =>
    case CreateFailed(temp) =>
    case Changed(id, change) => ChangeKeepsTracked(temporary, v, id, change);
    case Confirmed(id, updated) => ChangeKeepsTracked(temporary, v, id, _ => updated);
    case Removed(id) => RemovalKeepsTracked(temporary, v, id);
  }

  // ----- runs

  ghost predicate AllProper(temporary: string -> bool, events: seq<Event>) {
    forall i :: 0 <= i < |events| ==> Proper(temporary, events[i])
  }

  /** Starts never repeat a temporary id, neither each other's nor one of an earlier call. */
  ghost predicate FreshStarts(v: View, events: seq<Event>) {
    && (forall i :: 0 <= i < |events| ==> Fresh(v, events[i]))
    && (forall i, j :: 0 <= i < j < |events| && events[i].Started? && events[j].Started? ==>
          events[i].temp.id != events[j].temp.id)
  }

  ghost predicate StartedBy(v: View, events: seq<Event>, id: string) {
    || (exists k :: 0 <= k < |v.calls| && v.calls[k].temp.id == id)
    || (exists i :: 0 <= i < |events| && events[i].Started? && events[i].temp.id == id)
  }

  lemma {:induction false} CallsWereStarted(v: View, events: seq<Event>, k: nat)
    requires k < |ViewAfter(v, events).calls|
    ensures StartedBy(v, events, ViewAfter(v, events).calls[k].temp.id)
  {
    if events != [] {
      var n := |events| - 1;
      var front := events[..n];
      var before := ViewAfter(v, front);
      if k < |before.calls| {
        CallsWereStarted(v, front, k);
        var id := before.calls[k].temp.id;
        if i :| 0 <= i < |front| && front[i].Started? && front[i].temp.id == id {
          assert events[i].Started? && events[i].temp.id == id;
        }
      } else {
        assert events[n].Started?;
      }
    }
  }

  lemma {:induction false} LastStartIsFresh(v: View, events: seq<Event>)
    requires events != [] && FreshStarts(v, events)
    ensures Fresh(ViewAfter(v, events[..|events| - 1]), events[|events| - 1])
  {
    var n := |events| - 1;
    var before := ViewAfter(v, events[..n]);
    forall k | 0 <= k < |before.calls| && events[n].Started?
      ensures before.calls[k].temp.id != events[n].temp.id
    {
      CallsWereStarted(v, events[..n], k);
      assert Fresh(v, events[n]);
    }
  }

  lemma {:induction false} EventsAreFaithful(temporary: string -> bool, v: View, events: seq<Event>)
    requires Tracked(temporary, v) && AllProper(temporary, events) && FreshStarts(v, events)
    ensures Replay(List(v), events) == List(ViewAfter(v, events)) && Tracked(temporary, ViewAfter(v, events))
  {
    if events != [] {
      var n := |events| - 1;
      EventsAreFaithful(temporary, v, events[..n]);
      LastStartIsFresh(v, events);
      EventIsFaithful(temporary, ViewAfter(v, events[..n]), events[n]);
      EventKeepsTracked(temporary, ViewAfter(v, events[..n]), events[n]);
    }
  }

  ghost predicate Places(steps: seq<Step>, at: seq<nat>) {
    && |at| == |Surviving(steps)|
    && (forall i :: 0 <= i < |at| ==> at[i] < |steps| && steps[at[i]] == Done(Surviving(steps)[i]))
    && (forall i, j :: 0 <= i < j < |at| ==> at[i] < at[j])
  }

  /** What survives are steps of the run, in their order. */
  lemma {:induction false} SurvivorsAreSteps(steps: seq<Step>) returns (at: seq<nat>)
    requires WellTimed(steps)
    ensures Places(steps, at)
  {
    if steps == [] {
      at := [];
    } else {
      var n := |steps| - 1;
      match steps[n]
      case Done(e) =>
        var front := SurvivorsAreSteps(steps[..n]);
        at := front + [n];
      case Failed(since) =>
        at := SurvivorsAreSteps(steps[..since]);
    }
  }

  /** Ids are used as the helpers and the server promise, whatever fails. */
  ghost predicate ProperRun(temporary: string -> bool, v: View, steps: seq<Step>) {
    && WellTimed(steps)
    && (forall n :: 0 <= n < |steps| && steps[n].Done? ==> Proper(temporary, steps[n].event) && Fresh(v, steps[n].event))
    && (forall m, n :: 0 <= m < n < |steps| && IsStart(steps[m]) && IsStart(steps[n]) ==>
          steps[m].event.temp.id != steps[n].event.temp.id)
  }

  predicate IsStart(s: Step) {
    s.Done? && s.event.Started?
  }

  /** Any interleaving of creates, updates and deletes, succeeding or failing, leaves the base list
      followed, in start order, by the temporary item of each create in flight and what became of each
      finished one, as the surviving steps intend it. */
  lemma {:induction false} InterleavingIsFaithful(temporary: string -> bool, v: View, steps: seq<Step>)
    requires Tracked(temporary, v) && ProperRun(temporary, v, steps)
    ensures Replay(List(v), Surviving(steps)) == List(ViewAfter(v, Surviving(steps)))
    ensures Tracked(temporary, ViewAfter(v, Surviving(steps)))
  {
    var at := SurvivorsAreSteps(steps);
    var events := Surviving(steps);
    forall i | 0 <= i < |events|
      ensures Proper(temporary, events[i]) && Fresh(v, events[i])
    {
      assert steps[at[i]] == Done(events[i]);
    }
    forall i, j | 0 <= i < j < |events| && events[i].Started? && events[j].Started?
      ensures events[i].temp.id != events[j].temp.id
    {
      assert IsStart(steps[at[i]]) && IsStart(steps[at[j]]);
    }
    EventsAreFaithful(temporary, v, events);
  }

  /** The failure of a create removes its own item and nothing else if and only if no other item has the
      temporary id: two calls in flight with one id lose both. */
  lemma {:induction false} FailureRemovesOnlyOwn(before: seq<Item>, temp: Item, after: seq<Item>)
    ensures Apply(before + [temp] + after, CreateFailed(temp)) == before + after <==> NotUsed(before + after, temp.id)
  {
    OwnItemFiltered(before, temp, after);
    if NotUsed(before + after, temp.id) {
      FilteredKeepsUnused(before + after, temp.id);
    }
  }

  lemma {:induction false} OwnItemDropped(before: seq<Item>, temp: Item)
    ensures Filtered(before + [temp], temp.id) == Filtered(before, temp.id)
  {
    var all := before + [temp];
    assert all[..|all| - 1] == before && all[|all| - 1] == temp;
  }

  lemma {:induction false} OwnItemFiltered(before: seq<Item>, temp: Item, after: seq<Item>)
    ensures Filtered(before + [temp] + after, temp.id) == Filtered(before + after, temp.id)
  {
    FilteredAppends(before + [temp], after, temp.id);
    OwnItemDropped(before, temp);
    FilteredAppends(before, after, temp.id);
  }

  // ----- rolling back under overlap

  /** An update or delete begins with `first`, other calls do `events` meanwhile, and then it fails. */
  function FailedCall(first: Event, events: seq<Event>): seq<Step> {
    [Done(first)] + seq(|events|, i requires 0 <= i < |events| => Done(events[i])) + [Failed(0)]
  }

  lemma {:induction false} NothingSurvives(first: Event, events: seq<Event>)
    ensures WellTimed(FailedCall(first, events)) && Surviving(FailedCall(first, events)) == []
  {
    var steps := FailedCall(first, events);
    assert steps[|steps| - 1] == Failed(0) && steps[..0] == [];
  }

  /** No id is ever used in two places, the base list or the place of one call. */
  predicate Placed(v: View, place: string -> int) {
    AtPlace(v.base, place, -1) && forall k :: 0 <= k < |v.calls| ==> AtPlace(v.calls[k].shown, place, k)
  }

  predicate AtPlace(items: seq<Item>, place: string -> int, p: int) {
    forall x :: x in items ==> place(x.id) == p
  }

  function Part(items: seq<Item>, place: string -> int, p: int): seq<Item> {
    if items == [] then []
    else
      var n := |items| - 1;
      Part(items[..n], place, p) + (if place(items[n].id) == p then [items[n]] else [])
  }

  lemma {:induction false} PartAppends(a: seq<Item>, b: seq<Item>, place: string -> int, p: int)
    ensures Part(a + b, place, p) == Part(a, place, p) + Part(b, place, p)
  {
    if b == [] {
      assert a + b == a;
    } else {
      var n := |b| - 1;
      assert (a + b)[..|a + b| - 1] == a + b[..n];
      PartAppends(a, b[..n], place, p);
    }
  }

  lemma {:induction false} PartOfOnePlace(items: seq<Item>, place: string -> int, p: int, q: int)
    requires AtPlace(items, place, q)
    ensures Part(items, place, p) == if p == q then items else []
  {
    if items != [] {
      var n := |items| - 1;
      assert items[n] in items && items == items[..n] + [items[n]];
      PartOfOnePlace(items[..n], place, p, q);
    }
  }

  lemma {:induction false} PartOfShown(calls: seq<Call>, place: string -> int, p: int)
    requires forall k :: 0 <= k < |calls| ==> AtPlace(calls[k].shown, place, k)
    ensures Part(Shown(calls), place, p) == if 0 <= p < |calls| then calls[p].shown else []
  {
    if calls != [] {
      var n := |calls| - 1;
      PartOfShown(calls[..n], place, p);
      PartAppends(Shown(calls[..n]), calls[n].shown, place, p);
      PartOfOnePlace(calls[n].shown, place, p, n);
    }
  }

  /** From the list alone one can tell what each place shows. */
  lemma {:induction false} PartOfList(v: View, place: string -> int, p: int)
    requires Placed(v, place)
    ensures Part(List(v), place, p) ==
            if p == -1 then v.base else if 0 <= p < |v.calls| then v.calls[p].shown else []
  {
    PartAppends(v.base, Shown(v.calls), place, p);
    PartOfOnePlace(v.base, place, p, -1);
    PartOfShown(v.calls, place, p);
  }

  /** Calls keep their places, and none goes back in flight. */
  ghost predicate Grown(v: View, v': View) {
    && |v.calls| <= |v'.calls|
    && forall k :: 0 <= k < |v.calls| ==>
         v'.calls[k].temp == v.calls[k].temp && (v'.calls[k].inFlight ==> v.calls[k].inFlight)
  }

  lemma {:induction false} ViewsGrow(v: View, events: seq<Event>)
    ensures Grown(v, ViewAfter(v, events))
  {
    if events != [] {
      ViewsGrow(v, events[..|events| - 1]);
    }
  }

  /** No create in flight has finished, no item that was there has been changed for good or removed, and
      of the creates started since nothing remains. */
  predicate NothingLost(v: View, v': View) {
    && v'.base == v.base && |v.calls| <= |v'.calls|
    && (forall k :: 0 <= k < |v.calls| ==>
          if v.calls[k].inFlight then v'.calls[k].inFlight else v'.calls[k].shown == v.calls[k].shown)
    && (forall k :: |v.calls| <= k < |v'.calls| ==> v'.calls[k].shown == [])
  }

  lemma {:induction false} ShowsNothing(calls: seq<Call>)
    requires forall k :: 0 <= k < |calls| ==> calls[k].shown == []
    ensures Shown(calls) == []
  {
    if calls != [] {
      ShowsNothing(calls[..|calls| - 1]);
    }
  }

  lemma {:induction false} ShownAppends(a: seq<Call>, b: seq<Call>)
    ensures Shown(a + b) == Shown(a) + Shown(b)
  {
    if b == [] {
      assert a + b == a;
    } else {
      var n := |b| - 1;
      ShownAppends(a, b[..n]);
      assert (a + b)[..|a + b| - 1] == a + b[..n];
    }
  }

  lemma {:induction false} SameList(temporary: string -> bool, v: View, v': View)
    requires Tracked(temporary, v) && Tracked(temporary, v') && Grown(v, v') && NothingLost(v, v')
    ensures List(v') == List(v)
  {
    var n := |v.calls|;
    var early, late := v'.calls[..n], v'.calls[n..];
    assert v'.calls == early + late;
    ShownAppends(early, late);
    ShowsNothing(late);
    forall k | 0 <= k < n
      ensures early[k].shown == v.calls[k].shown
    {
      assert TracksCall(temporary, v.calls[k]) && TracksCall(temporary, v'.calls[k]);
    }
    SameShown(early, v.calls);
  }

  lemma {:induction false} SamePlaces(temporary: string -> bool, v: View, v': View, place: string -> int)
    requires Tracked(temporary, v) && Tracked(temporary, v') && Grown(v, v') && List(v') == List(v)
    requires Placed(v, place) && Placed(v', place)
    ensures NothingLost(v, v')
  {
    PartOfList(v, place, -1);
    PartOfList(v', place, -1);
    forall k | 0 <= k < |v'.calls|
      ensures v'.calls[k].shown == if k < |v.calls| then v.calls[k].shown else []
    {
      PartOfList(v, place, k);
      PartOfList(v', place, k);
    }
    forall k | 0 <= k < |v.calls| && v.calls[k].inFlight
      ensures v'.calls[k].inFlight
    {
      assert TracksCall(temporary, v.calls[k]) && TracksCall(temporary, v'.calls[k]);
      assert v.calls[k].temp in v'.calls[k].shown;
    }
  }

  /** A failed update or delete leaves the list its snapshot showed. Given what other calls did meanwhile,
      that is the right list if and only if nothing they did lasts: no create in flight has finished, no
      item has changed for good or gone, and every create started since has come to nothing. */
  lemma {:induction false} RollbackExactIff(
    temporary: string -> bool, place: string -> int, v: View, first: Event, events: seq<Event>)
    requires Tracked(temporary, v) && AllProper(temporary, events) && FreshStarts(v, events)
    requires Placed(v, place) && Placed(ViewAfter(v, events), place)
    ensures Replay(List(v), Surviving(FailedCall(first, events))) == List(v)
    ensures Replay(List(v), Surviving(FailedCall(first, events))) == Replay(List(v), events)
       <==> NothingLost(v, ViewAfter(v, events))
  {
    var v' := ViewAfter(v, events);
    NothingSurvives(first, events);
    EventsAreFaithful(temporary, v, events);
    ViewsGrow(v, events);
    if NothingLost(v, v') {
      SameList(temporary, v, v');
    } else if List(v') == List(v) {
      SamePlaces(temporary, v, v', place);
    }
  }

  /** A create that starts and succeeds while an update is waiting is lost when the update fails. */
  lemma {:induction false} RollbackLosesCreate(items: seq<Item>, first: Event, temp: Item, created: Item)
    requires NotUsed(items, temp.id)
    ensures Replay(items, [Started(temp), Created(temp, created)]) == items + [created]
    ensures Replay(items, Surviving(FailedCall(first, [Started(temp), Created(temp, created)]))) == items
  {
    var events := [Started(temp), Created(temp, created)];
    NothingSurvives(first, events);
    assert events[..1] == [] + [Started(temp)] && events[..1][..0] == [];
    assert Replay(items, events[..1]) == items + [temp];
    MappedAppends(items, [temp], temp.id, _ => created);
    MappedKeepsUnused(items, temp.id, _ => created);
  }
}
