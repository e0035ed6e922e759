/** The volume watcher: from polls of mounted volumes to debounced attach and detach events. */
module VolumeWatcher {
  import opened Text

  type Guid = string
  const SLOT_GRACE := 5   // seconds an unresolved slot may hold an attach back

  datatype VolState = VolState(firstSeen: int, attached: bool, info: string, slot: Option<string>, slotAttempts: nat)

  datatype Event = Attached(guid: Guid, info: string, slot: Option<string>) | Detached(guid: Guid)

  /** One poll and what it meets: the listing (`None` if it failed), the volumes whose turn
      found detection paused, and the volume infos and slots that could be read. */
  datatype Poll = Poll(now: int, listing: Option<set<Guid>>, paused: set<Guid>,
                       infos: map<Guid, string>, slots: map<Guid, string>)
  {
    predicate Lists(g: Guid) { listing.Some? && g in listing.value }
    predicate Misses(g: Guid) { listing.Some? && g !in listing.value }
  }

  function Get(states: map<Guid, VolState>, g: Guid): Option<VolState> {
    if g in states then Some(states[g]) else None
  }

  /** A listed volume's state and event after the poll. */
  function Promote(debounce: int, st: Option<VolState>, g: Guid, p: Poll): (VolState, seq<Event>) {
    if st.None? then (VolState(p.now, false, "", None, 0), [])
    else
      var v := st.value;
      var age := p.now - v.firstSeen;
      if v.attached || g in p.paused || age < debounce || g !in p.infos then (v, [])
      else if g in p.slots then
        (v.(attached := true, info := p.infos[g], slot := Some(p.slots[g])),
         [Attached(g, p.infos[g], Some(p.slots[g]))])
      else
        var tried := v.(slotAttempts := v.slotAttempts + 1);
        if age < debounce + SLOT_GRACE then (tried, [])
        else (tried.(attached := true, info := p.infos[g], slot := None), [Attached(g, p.infos[g], None)])
  }

  /** One volume through one poll. */
  function Next(debounce: int, st: Option<VolState>, g: Guid, p: Poll): (Option<VolState>, seq<Event>) {
    if p.listing.None? then (st, [])
    else if p.Lists(g) then
      var (v, es) := Promote(debounce, st, g, p);
      (Some(v), es)
    else (None, if st.Some? && st.value.attached then [Detached(g)] else [])
  }

  /** One volume through a sequence of polls: its state and all its events. */
  function Life(debounce: int, g: Guid, polls: seq<Poll>): (Option<VolState>, seq<Event>) {
    if polls == [] then (None, [])
    else
      var (st, es) := Life(debounce, g, polls[..|polls| - 1]);
      var (st', es') := Next(debounce, st, g, polls[|polls| - 1]);
      (st', es + es')
  }

  /** The events about `g`. */
  function Of(events: seq<Event>, g: Guid): seq<Event> {
    if events == [] then []
    else
      var e := events[|events| - 1];
      Of(events[..|events| - 1], g) + (if e.guid == g then [e] else [])
  }

  lemma OfAdd(events: seq<Event>, e: Event, g: Guid)
    ensures Of(events + [e], g) == Of(events, g) + (if e.guid == g then [e] else [])
  {
    assert (events + [e])[..|events|] == events;
  }

  /** Between the two views of all volumes, nothing happened to `g`. */
  predicate Same(was: map<Guid, VolState>, trace: seq<Event>, states: map<Guid, VolState>, events: seq<Event>,
                 g: Guid) {
    Get(states, g) == Get(was, g) && Of(events, g) == Of(trace, g)
  }

  /** Between the two views of all volumes, `g` went through poll `p`. */
  predicate Polled(debounce: int, was: map<Guid, VolState>, trace: seq<Event>, states: map<Guid, VolState>,
                   events: seq<Event>, g: Guid, p: Poll) {
    var (st, es) := Next(debounce, Get(was, g), g, p);
    Get(states, g) == st && Of(events, g) == Of(trace, g) + es
  }

  /** What happened to `x` over two stretches of which one is nothing. */
  lemma OneOfTwo(debounce: int, was: map<Guid, VolState>, trace: seq<Event>, mid: map<Guid, VolState>, some: seq<Event>,
                 states: map<Guid, VolState>, events: seq<Event>, x: Guid, p: Poll)
    ensures Same(was, trace, mid, some, x) && Same(mid, some, states, events, x) ==> Same(was, trace, states, events, x)
    ensures Polled(debounce, was, trace, mid, some, x, p) && Same(mid, some, states, events, x) ==>
              Polled(debounce, was, trace, states, events, x, p)
    ensures Same(was, trace, mid, some, x) && Polled(debounce, mid, some, states, events, x, p) ==>
              Polled(debounce, was, trace, states, events, x, p)
  {
  }

  // ---- what a volume's events mean --------------------------------------------------------

  /** (Attached Detached)* Attached? */
  predicate Alternates(es: seq<Event>) {
    forall i :: 0 <= i < |es| ==> (es[i].Attached? <==> i % 2 == 0)
  }

  /** Index of the successful poll since which every successful poll listed `g`, if the last
      successful poll did. */
  function Since(polls: seq<Poll>, g: Guid): (r: Option<nat>)
    ensures r.Some? ==> r.value < |polls|
  {
    if polls == [] then None
    else
      var n := |polls| - 1;
      var before := Since(polls[..n], g);
      if polls[n].listing.None? then before
      else if polls[n].Misses(g) then None
      else if before.Some? then before
      else Some(n)
  }

  /** A listing between polls `k` and `n` lacked `g`. */
  predicate LeftBetween(polls: seq<Poll>, g: Guid, k: nat, n: nat)
    requires n <= |polls|
  {
    exists l :: k < l < n && polls[l].Misses(g)
  }

  /** `g` was listed at poll `i` and has been there since, and had left whenever it was listed before. */
  predicate StaysSince(polls: seq<Poll>, g: Guid, i: nat) {
    && i < |polls| && polls[i].Lists(g)
    && (forall k :: i <= k < |polls| ==> !polls[k].Misses(g))
    && (forall k :: 0 <= k < i && polls[k].Lists(g) ==> LeftBetween(polls, g, k, i))
  }

  lemma LeftStays(polls: seq<Poll>, g: Guid, k: nat, n: nat, m: nat)
    requires n < |polls| && m <= n && LeftBetween(polls[..n], g, k, m)
    ensures LeftBetween(polls, g, k, m)
  {
    var l :| k < l < m && polls[..n][l].Misses(g);
    assert polls[l].Misses(g);
  }

  /** The one, or, if there is none, `g` has left since it was last listed. */
  lemma {:induction false} SinceIs(polls: seq<Poll>, g: Guid)
    ensures match Since(polls, g)
      case Some(i) => StaysSince(polls, g, i)
      case None => forall k :: 0 <= k < |polls| && polls[k].Lists(g) ==> LeftBetween(polls, g, k, |polls|)
  {
    if polls != [] {
      var n := |polls| - 1;
      var before := polls[..n];
      SinceIs(before, g);
      match Since(before, g)
      case Some(i) =>
        forall k | i <= k < n ensures !polls[k].Misses(g) {
          assert before[k] == polls[k];
        }
        forall k | 0 <= k < i && polls[k].Lists(g) ensures LeftBetween(polls, g, k, i) {
          assert before[k] == polls[k];
          LeftStays(polls, g, k, n, i);
        }
        if polls[n].Misses(g) {
          forall k | 0 <= k < |polls| && polls[k].Lists(g) ensures LeftBetween(polls, g, k, |polls|) {
            assert k < n < |polls|;
          }
        }
      case None =>
        forall k | 0 <= k < n && polls[k].Lists(g) ensures LeftBetween(polls, g, k, n) {
          assert before[k] == polls[k];
          LeftStays(polls, g, k, n, n);
        }
        forall k | 0 <= k < n && polls[k].Lists(g) ensures LeftBetween(polls, g, k, |polls|) {
          var l :| k < l < n && polls[l].Misses(g);
        }
    }
  }

  lemma NoneLeft(polls: seq<Poll>, g: Guid, i: nat, n: nat)
    requires StaysSince(polls, g, i) && n <= |polls|
    ensures !LeftBetween(polls, g, i, n)
  {
  }

  /** The debounce counts from the poll at which the present stay began. */
  lemma SinceExactlyWhen(polls: seq<Poll>, g: Guid, i: nat)
    ensures Since(polls, g) == Some(i) <==> StaysSince(polls, g, i)
  {
    SinceIs(polls, g);
    if StaysSince(polls, g, i) {
      NoneLeft(polls, g, i, |polls|);
      var since := Since(polls, g);
      if since.Some? {
        NoneLeft(polls, g, i, since.value);
        NoneLeft(polls, g, since.value, i);
      }
    }
  }

  /** `es` alternates, is about `g`, and ends in Attached exactly if `st` is marked attached. */
  predicate EventsOk(g: Guid, st: Option<VolState>, es: seq<Event>) {
    && Alternates(es)
    && (st.Some? && st.value.attached <==> es != [] && es[|es| - 1].Attached?)
    && (st.Some? && st.value.attached ==> es[|es| - 1] == Attached(g, st.value.info, st.value.slot))
    && forall i :: 0 <= i < |es| ==> es[i].guid == g
  }

  lemma NextOk(debounce: int, g: Guid, st: Option<VolState>, es: seq<Event>, p: Poll)
    requires EventsOk(g, st, es)
    ensures var (st', more) := Next(debounce, st, g, p);
      EventsOk(g, st', es + more)
  {
    var (st', more) := Next(debounce, st, g, p);
    assert more == [] ==> es + more == es;
  }

  /** A volume is tracked exactly if the last successful listing has it, counted from the first
      poll of its present stay; its events alternate, and it is marked attached exactly if its
      last event is Attached. */
  lemma {:induction false} LifeOk(debounce: int, g: Guid, polls: seq<Poll>)
    ensures var (st, es) := Life(debounce, g, polls);
      && (st.Some? <==> Since(polls, g).Some?)
      && (st.Some? ==> st.value.firstSeen == polls[Since(polls, g).value].now)
      && EventsOk(g, st, es)
  {
    if polls != [] {
      var before, p := polls[..|polls| - 1], polls[|polls| - 1];
      LifeOk(debounce, g, before);
      var (st, es) := Life(debounce, g, before);
      NextOk(debounce, g, st, es, p);
    }
  }

  /** Attached fires at a poll exactly if the volume is listed, was in every successful poll for
      at least the debounce time, is not attached already, detection is not paused, its info
      can be read, and its slot is known or has been waited for 5 seconds more. */
  lemma AttachesExactlyWhen(debounce: int, g: Guid, polls: seq<Poll>, p: Poll)
    ensures var es, more := Life(debounce, g, polls).1, Next(debounce, Life(debounce, g, polls).0, g, p).1;
      var start := Since(polls, g);
      var slot := if g in p.slots then Some(p.slots[g]) else None;
      var due :=
        && p.Lists(g) && start.Some? && (es == [] || es[|es| - 1].Detached?)
        && g !in p.paused && g in p.infos
        && p.now - polls[start.value].now >= debounce + (if slot.Some? then 0 else 5);
      && ((more != [] && more[0].Attached?) <==> due)
      && (due ==> more == [Attached(g, p.infos[g], slot)])
  {
    LifeOk(debounce, g, polls);
  }

  /** A poll has nothing to say about a volume, unless it attaches or detaches it. */
  lemma NothingElse(debounce: int, g: Guid, st: Option<VolState>, p: Poll)
    ensures var more := Next(debounce, st, g, p).1; more == [] || (|more| == 1 && more[0].guid == g)
  {
  }

  /** Detached fires at a poll exactly if the volume was attached and the listing lacks it. */
  lemma DetachesExactlyWhen(debounce: int, g: Guid, polls: seq<Poll>, p: Poll)
    ensures var es, more := Life(debounce, g, polls).1, Next(debounce, Life(debounce, g, polls).0, g, p).1;
      var due := p.Misses(g) && es != [] && es[|es| - 1].Attached?;
      && ((more != [] && more[0].Detached?) <==> due)
      && (due ==> more == [Detached(g)])
  {
    LifeOk(debounce, g, polls);
  }

  /** The whole trace: what the watcher tracks and has published, for every volume at once. */
  ghost predicate Watched(debounce: int, states: map<Guid, VolState>, events: seq<Event>, polls: seq<Poll>) {
    forall g :: Get(states, g) == Life(debounce, g, polls).0 && Of(events, g) == Life(debounce, g, polls).1
  }

  class Watcher {
    const debounce: int
    var states: map<Guid, VolState>
    var events: seq<Event>
    ghost var polls: seq<Poll>

    ghost predicate Valid()
      reads this
    {
      Watched(debounce, states, events, polls)
    }

    constructor (debounce: int)
      ensures Valid() && polls == [] && events == [] && this.debounce == debounce
    {
      this.debounce := debounce;
      states, events, polls := map[], [], [];
    }

    /** One scan cycle. The volumes are visited in no particular order. */
    method Poll(p: Poll)
      requires Valid()
      modifies this
      ensures Valid() && polls == old(polls) + [p] && old(events) <= events
      ensures forall g :: var (st, es) := Next(debounce, Get(old(states), g), g, p);
                Get(states, g) == st && Of(events, g) == Of(old(events), g) + es
    {
      if p.listing.Some? {
        ghost var was, trace := states, events;
        PromoteAll(p, p.listing.value);
        ghost var mid, more := states, events;
        DropDeparted(p, p.listing.value);
        forall g ensures var (st, es) := Next(debounce, Get(was, g), g, p);
          Get(states, g) == st && Of(events, g) == Of(trace, g) + es
        {
          if g !in p.listing.value {
            assert Get(mid, g) == Get(was, g);
          }
        }
      }
      polls := polls + [p];
      assert polls[..|polls| - 1] == old(polls);
    }

    /** Departed volumes. */
    method DropDeparted(p: Poll, present: set<Guid>)
      requires p.listing == Some(present)
      modifies this`states, this`events
      ensures old(events) <= events
      ensures forall g :: g !in present ==> Polled(debounce, old(states), old(events), states, events, g, p)
      ensures forall g :: g in present ==> Same(old(states), old(events), states, events, g)
    {
      var todo := states.Keys - present;
      ghost var was, trace := states, events;
      while todo != {}
        invariant todo <= states.Keys && todo !! present && trace <= events
        invariant states.Keys <= was.Keys && states.Keys - present == todo
        invariant forall g :: g in present || g in todo ==> Same(was, trace, states, events, g)
        invariant forall g :: g !in present && g !in todo ==> Polled(debounce, was, trace, states, events, g, p)
        decreases todo
      {
        var g :| g in todo;
        todo := todo - {g};
        ghost var mid, some := states, events;
        Depart(p, g);
        forall x
          ensures x in present || x in todo ==> Same(was, trace, states, events, x)
          ensures x !in present && x !in todo ==> Polled(debounce, was, trace, states, events, x, p)
        {
          assert x != g ==> Same(mid, some, states, events, x);
          OneOfTwo(debounce, was, trace, mid, some, states, events, x, p);
        }
      }
    }

    /** One tracked volume the listing lacks. */
    method Depart(p: Poll, g: Guid)
      requires p.Misses(g) && g in states
      modifies this`states, this`events
      ensures states.Keys == old(states).Keys - {g} && old(events) <= events
      ensures Polled(debounce, old(states), old(events), states, events, g, p)
      ensures forall x :: x != g ==> Same(old(states), old(events), states, events, x)
    {
      var st := states[g];
      states := states - {g};
      if st.attached {
        Publish(Detached(g));
      }
    }

    /** New volumes and debounce promotion. */
    method PromoteAll(p: Poll, present: set<Guid>)
      requires p.listing == Some(present)
      modifies this`states, this`events
      ensures states.Keys == old(states).Keys + present && old(events) <= events
      ensures forall g :: g in present ==> Polled(debounce, old(states), old(events), states, events, g, p)
      ensures forall g :: g !in present ==> Same(old(states), old(events), states, events, g)
    {
      var todo := present;
      ghost var was, trace := states, events;
      while todo != {}
        invariant todo <= present && states.Keys == was.Keys + (present - todo) && trace <= events
        invariant forall g :: g !in present || g in todo ==> Same(was, trace, states, events, g)
        invariant forall g :: g in present - todo ==> Polled(debounce, was, trace, states, events, g, p)
        decreases todo
      {
        var g :| g in todo;
        todo := todo - {g};
        ghost var mid, some := states, events;
        Visit(p, g);
        forall x
          ensures x !in present || x in todo ==> Same(was, trace, states, events, x)
          ensures x in present - todo ==> Polled(debounce, was, trace, states, events, x, p)
        {
          assert x != g ==> Same(mid, some, states, events, x);
          OneOfTwo(debounce, was, trace, mid, some, states, events, x, p);
        }
      }
    }

    /** One listed volume. */
    method Visit(p: Poll, g: Guid)
      requires p.Lists(g)
      modifies this`states, this`events
      ensures states.Keys == old(states).Keys + {g} && old(events) <= events
      ensures Polled(debounce, old(states), old(events), states, events, g, p)
      ensures forall x :: x != g ==> Same(old(states), old(events), states, events, x)
    {
      if g !in states {
        states := states[g := VolState(p.now, false, "", None, 0)];
        return;
      }
      var st := states[g];
      if st.attached || g in p.paused {
        return;
      }
      if p.now - st.firstSeen < debounce {
        return;
      }
      if g !in p.infos {
        return;
      }
      var slot: Option<string> := None;
      if g in p.slots {
        slot := Some(p.slots[g]);
      } else {
        st := st.(slotAttempts := st.slotAttempts + 1);
        states := states[g := st];
        if p.now - st.firstSeen < debounce + SLOT_GRACE {
          return;
        }
      }
      states := states[g := st.(attached := true, info := p.infos[g], slot := slot)];
      Publish(Attached(g, p.infos[g], slot));
    }

    method Publish(e: Event)
      modifies this`events
      ensures events == old(events) + [e]
      ensures forall g :: Of(events, g) == Of(old(events), g) + (if e.guid == g then [e] else [])
    {
      forall g ensures Of(events + [e], g) == Of(events, g) + (if e.guid == g then [e] else []) {
        OfAdd(events, e, g);
      }
      events := events + [e];
    }

    /** The current view: which volumes are tracked, and which of them count as attached. */
    method Snapshot() returns (view: map<Guid, bool>)
      requires Valid()
      ensures forall g :: g in view <==> Since(polls, g).Some?
      ensures forall g :: g in view ==>
                (view[g] <==> Of(events, g) != [] && Of(events, g)[|Of(events, g)| - 1].Attached?)
    {
      view := map g | g in states :: states[g].attached;
      forall g
        ensures g in view <==> Since(polls, g).Some?
        ensures g in view ==> (view[g] <==> Of(events, g) != [] && Of(events, g)[|Of(events, g)| - 1].Attached?)
      {
        LifeOk(debounce, g, polls);
        assert Get(states, g) == Life(debounce, g, polls).0 && Of(events, g) == Life(debounce, g, polls).1;
      }
    }
  }
}
