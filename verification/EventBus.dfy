/** The lossy publish/subscribe bus: publishing never blocks, a full subscriber loses the event. */
module EventBus {
  import opened Text

  type Topic = string
  type SubId = nat
  type PubId = nat

  datatype Event = Event(topic: Topic, payload: int)

  /** The `n`-th event published on the bus. */
  datatype Post = Post(n: nat, event: Event)

  /** One attempt to hand an event to a subscriber, and whether it got it. */
  datatype Offer = Offer(post: Post, accepted: bool)

  /** A subscription: its channel buffer, what its reader took so far, the drop counter, whether
      Close has begun and whether the channel is closed. `offers` (every send attempted, in
      order) and `published` (the matching events published while it was subscribed, in the order
      their Publish began) are history. */
  datatype Sub = Sub(topics: Option<set<Topic>>, cap: nat, buffer: seq<Event>, taken: seq<Event>, dropped: nat,
                     closing: bool, closed: bool, offers: seq<Offer>, published: seq<Post>)
  {
    predicate Matches(e: Event) {
      topics.None? || e.topic in topics.value
    }
  }

  /** The non-blocking send: an unbuffered channel takes an event only if a reader waits. */
  function Send(s: Sub, post: Post, readerWaits: bool): Sub {
    var e := post.event;
    if |s.buffer| < s.cap then s.(buffer := s.buffer + [e], offers := s.offers + [Offer(post, true)])
    else if s.cap == 0 && readerWaits then s.(taken := s.taken + [e], offers := s.offers + [Offer(post, true)])
    else s.(dropped := s.dropped + 1, offers := s.offers + [Offer(post, false)])
  }

  /** A Publish in progress: it holds the read lock and still has to visit `todo`. */
  datatype Publisher = Publisher(post: Post, todo: set<SubId>)

  /** `registered` is the bus's subscriber set. `panicked`: somebody sent on a closed channel.
      History: `count` (publishes begun) and `ended` (for each publish that is over, how many had
      begun by then). */
  datatype State = State(subs: map<SubId, Sub>, registered: set<SubId>, publishers: map<PubId, Publisher>,
                         panicked: bool, count: nat, ended: map<nat, nat>)

  const EMPTY := State(map[], {}, map[], false, 0, map[])

  datatype Action =
    | Subscribe(s: SubId, topics: Option<set<Topic>>, cap: nat)   // under the write lock
    | Publish(p: PubId, event: Event)                             // takes the read lock
    | Visit(p: PubId, s: SubId, readerWaits: bool)
    | Unlock(p: PubId)
    | Take(s: SubId)
    | Unregister(s: SubId)                                        // first half of Close, write lock
    | CloseChannel(s: SubId)                                      // second half, no lock

  predicate Enabled(t: State, a: Action) {
    match a
    case Subscribe(s, _, _) => t.publishers == map[] && s !in t.subs
    case Publish(p, _) => p !in t.publishers
    case Visit(p, s, _) => p in t.publishers && s in t.publishers[p].todo && s in t.subs
    case Unlock(p) => p in t.publishers && t.publishers[p].todo == {}
    case Take(s) => s in t.subs && t.subs[s].buffer != []
    case Unregister(s) => t.publishers == map[] && s in t.subs && !t.subs[s].closing
    case CloseChannel(s) => s in t.subs && t.subs[s].closing && !t.subs[s].closed
  }

  function Step(t: State, a: Action): State
    requires Enabled(t, a)
  {
    match a
    case Subscribe(s, topics, cap) =>
      t.(subs := t.subs[s := Sub(topics, cap, [], [], 0, false, false, [], [])], registered := t.registered + {s})
    case Publish(p, e) =>
      var post := Post(t.count, e);
      t.(publishers := t.publishers[p := Publisher(post, t.registered)], count := t.count + 1,
         subs := map s | s in t.subs ::
           if s in t.registered && t.subs[s].Matches(e) then t.subs[s].(published := t.subs[s].published + [post])
           else t.subs[s])
    case Visit(p, s, waits) =>
      var pub, sub := t.publishers[p], t.subs[s];
      t.(publishers := t.publishers[p := pub.(todo := pub.todo - {s})],
         subs := if sub.Matches(pub.post.event) then t.subs[s := Send(sub, pub.post, waits)] else t.subs,
         panicked := t.panicked || (sub.Matches(pub.post.event) && sub.closed))
    case Unlock(p) =>
      t.(publishers := t.publishers - {p}, ended := t.ended[t.publishers[p].post.n := t.count])
    case Take(s) =>
      var sub := t.subs[s];
      t.(subs := t.subs[s := sub.(buffer := sub.buffer[1..], taken := sub.taken + [sub.buffer[0]])])
    case Unregister(s) =>
      t.(registered := t.registered - {s}, subs := t.subs[s := t.subs[s].(closing := true)])
    case CloseChannel(s) => t.(subs := t.subs[s := t.subs[s].(closed := true)])
  }

  /** The events accepted, in order. */
  function Accepted(offers: seq<Offer>): (r: seq<Event>)
    ensures |r| <= |offers|
  {
    if offers == [] then []
    else
      var o := offers[|offers| - 1];
      Accepted(offers[..|offers| - 1]) + (if o.accepted then [o.post.event] else [])
  }

  /** The events offered, in order. */
  function Posts(offers: seq<Offer>): seq<Post> {
    seq(|offers|, i requires 0 <= i < |offers| => offers[i].post)
  }

  /** Publisher `p` is still to offer its event to subscription `s`. */
  predicate Owes(t: State, s: SubId, p: PubId)
    requires s in t.subs
  {
    p in t.publishers && s in t.publishers[p].todo && t.subs[s].Matches(t.publishers[p].post.event)
  }

  /** The events `s` is still to be offered. */
  function Pending(t: State, s: SubId): set<Post>
    requires s in t.subs
  {
    set p | p in t.publishers && Owes(t, s, p) :: t.publishers[p].post
  }

  /** Conservation for one subscription. */
  predicate Conserved(s: Sub) {
    && s.taken + s.buffer == Accepted(s.offers)
    && s.dropped + |Accepted(s.offers)| == |s.offers|
    && |s.buffer| <= s.cap
  }

  /** What was offered and what is about to be are, together, what was published. */
  predicate Counted(t: State, s: SubId)
    requires s in t.subs
  {
    multiset(Posts(t.subs[s].offers)) + multiset(Pending(t, s)) == multiset(t.subs[s].published)
  }

  /** Events published are numbered upwards, and match. */
  predicate PublishedOk(t: State, s: SubId)
    requires s in t.subs
  {
    var ps := t.subs[s].published;
    && (forall i :: 0 <= i < |ps| ==> ps[i].n < t.count && t.subs[s].Matches(ps[i].event))
    && (forall i, k :: 0 <= i < k < |ps| ==> ps[i].n < ps[k].n)
  }

  /** An event is offered before another only if the other's Publish was not over when its own began. */
  predicate InOrder(t: State, s: SubId)
    requires s in t.subs
  {
    var os := t.subs[s].offers;
    && (forall i :: 0 <= i < |os| ==> os[i].post.n < t.count)
    && (forall i, k :: 0 <= i < k < |os| && os[k].post.n in t.ended ==> os[i].post.n < t.ended[os[k].post.n])
  }

  /** Publishers have numbers of their own, not yet ended. */
  predicate Numbered(t: State) {
    && (forall p :: p in t.publishers ==> t.publishers[p].post.n < t.count && t.publishers[p].post.n !in t.ended)
    && (forall p, q :: p in t.publishers && q in t.publishers && p != q ==>
          t.publishers[p].post.n != t.publishers[q].post.n)
    && (forall n :: n in t.ended ==> n < t.count)
  }

  predicate Structure(t: State) {
    && !t.panicked
    && (forall s :: s in t.registered ==> s in t.subs && !t.subs[s].closing)
    && (forall p :: p in t.publishers ==> t.publishers[p].todo <= t.registered)
    && (forall s :: s in t.subs ==> Conserved(t.subs[s]) && (t.subs[s].closed ==> t.subs[s].closing))
  }

  predicate Inv(t: State) {
    Structure(t) && Numbered(t) && forall s :: s in t.subs ==> SubOk(t, s)
  }

  predicate SubOk(t: State, s: SubId)
    requires s in t.subs
  {
    Counted(t, s) && PublishedOk(t, s) && InOrder(t, s)
  }

  lemma AcceptedStep(offers: seq<Offer>, o: Offer)
    ensures Accepted(offers + [o]) == Accepted(offers) + (if o.accepted then [o.post.event] else [])
    ensures Posts(offers + [o]) == Posts(offers) + [o.post]
  {
    assert (offers + [o])[..|offers|] == offers;
  }

  lemma SendConserves(s: Sub, post: Post, readerWaits: bool)
    requires Conserved(s)
    ensures Conserved(Send(s, post, readerWaits))
    ensures Posts(Send(s, post, readerWaits).offers) == Posts(s.offers) + [post]
  {
    var e := post.event;
    var o := Offer(post, |s.buffer| < s.cap || (s.cap == 0 && readerWaits));
    AcceptedStep(s.offers, o);
    assert s.taken + (s.buffer + [e]) == (s.taken + s.buffer) + [e];
    if s.cap == 0 {
      assert s.buffer == [];
      assert s.taken + [e] + s.buffer == (s.taken + s.buffer) + [e];
    }
  }

  lemma TakeConserves(s: Sub)
    requires Conserved(s) && s.buffer != []
    ensures Conserved(s.(buffer := s.buffer[1..], taken := s.taken + [s.buffer[0]]))
  {
    assert s.buffer == [s.buffer[0]] + s.buffer[1..];
    assert (s.taken + [s.buffer[0]]) + s.buffer[1..] == s.taken + s.buffer;
  }

  lemma VisitKeepsStructure(t: State, a: Action)
    requires Structure(t) && Enabled(t, a) && a.Visit?
    ensures Structure(Step(t, a))
  {
    SendConserves(t.subs[a.s], t.publishers[a.p].post, a.readerWaits);
  }

  lemma StructureKept(t: State, a: Action)
    requires Structure(t) && Enabled(t, a)
    ensures Structure(Step(t, a))
  {
    if a.Visit? {
      VisitKeepsStructure(t, a);
    } else if a.Take? {
      TakeConserves(t.subs[a.s]);
    }
  }

  lemma NumberedKept(t: State, a: Action)
    requires Numbered(t) && Enabled(t, a)
    ensures Numbered(Step(t, a))
  {
  }

  lemma SamePending(t: State, u: State, s: SubId)
    requires s in t.subs && s in u.subs
    requires forall p :: p in t.publishers && Owes(t, s, p) ==>
               Owes(u, s, p) && u.publishers[p].post == t.publishers[p].post
    requires forall p :: p in u.publishers && Owes(u, s, p) ==>
               Owes(t, s, p) && u.publishers[p].post == t.publishers[p].post
    ensures Pending(u, s) == Pending(t, s)
  {
    forall x ensures x in Pending(u, s) <==> x in Pending(t, s) {
      if p :| p in t.publishers && Owes(t, s, p) && t.publishers[p].post == x {
        assert Owes(u, s, p);
      }
      if p :| p in u.publishers && Owes(u, s, p) && u.publishers[p].post == x {
        assert Owes(t, s, p);
      }
    }
  }

  /** From `t` to `u`, publisher `q` came to owe `post` to `s`. */
  lemma MorePending(t: State, u: State, s: SubId, q: PubId)
    requires s in t.subs && s in u.subs && Owes(u, s, q) && !Owes(t, s, q)
    requires forall p :: p in t.publishers && Owes(t, s, p) ==>
               Owes(u, s, p) && u.publishers[p].post == t.publishers[p].post
    requires forall p :: p in u.publishers && Owes(u, s, p) && p != q ==>
               Owes(t, s, p) && u.publishers[p].post == t.publishers[p].post
    requires Numbered(u)
    ensures var post := u.publishers[q].post; Pending(u, s) == Pending(t, s) + {post} && post !in Pending(t, s)
  {
    var post := u.publishers[q].post;
    forall x ensures x in Pending(u, s) <==> x in Pending(t, s) || x == post {
      if p :| p in t.publishers && Owes(t, s, p) && t.publishers[p].post == x {
        assert Owes(u, s, p);
      }
      if p :| p in u.publishers && Owes(u, s, p) && u.publishers[p].post == x {
        assert p == q || Owes(t, s, p);
      }
    }
  }

  lemma PublishedOneMore(offered: multiset<Post>, owed: set<Post>, published: seq<Post>, post: Post)
    requires offered + multiset(owed) == multiset(published) && post !in owed
    ensures offered + multiset(owed + {post}) == multiset(published + [post])
  {
    assert multiset(owed + {post}) == multiset(owed) + multiset{post};
  }

  lemma OfferedOneMore(offered: seq<Post>, owed: set<Post>, published: multiset<Post>, post: Post)
    requires multiset(offered) + multiset(owed + {post}) == published && post !in owed
    ensures multiset(offered + [post]) + multiset(owed) == published
  {
    assert multiset(owed + {post}) == multiset(owed) + multiset{post};
  }

  lemma CountedAfterPublish(t: State, a: Action, s: SubId)
    requires Structure(t) && Numbered(t) && Enabled(t, a) && a.Publish? && s in t.subs && Counted(t, s)
    ensures Counted(Step(t, a), s)
  {
    var u := Step(t, a);
    NumberedKept(t, a);
    assert forall p :: p in t.publishers ==> p in u.publishers && u.publishers[p] == t.publishers[p];
    if s in t.registered && t.subs[s].Matches(a.event) {
      assert Owes(u, s, a.p);
      MorePending(t, u, s, a.p);
      PublishedOneMore(multiset(Posts(t.subs[s].offers)), Pending(t, s), t.subs[s].published, Post(t.count, a.event));
    } else {
      SamePending(t, u, s);
    }
  }

  lemma CountedAfterOwnVisit(t: State, a: Action)
    requires Structure(t) && Numbered(t) && Enabled(t, a) && a.Visit? && Counted(t, a.s) && Owes(t, a.s, a.p)
    ensures Counted(Step(t, a), a.s)
  {
    var u, s, post := Step(t, a), a.s, t.publishers[a.p].post;
    MorePending(u, t, s, a.p);
    SendConserves(t.subs[s], post, a.readerWaits);
    OfferedOneMore(Posts(t.subs[s].offers), Pending(u, s), multiset(t.subs[s].published), post);
  }

  lemma CountedAfterVisit(t: State, a: Action, s: SubId)
    requires Structure(t) && Numbered(t) && Enabled(t, a) && a.Visit? && s in t.subs && Counted(t, s)
    ensures Counted(Step(t, a), s)
  {
    if s == a.s && Owes(t, s, a.p) {
      CountedAfterOwnVisit(t, a);
    } else {
      SamePending(t, Step(t, a), s);
    }
  }

  lemma CountedAfterOther(t: State, a: Action, s: SubId)
    requires Structure(t) && Enabled(t, a) && !a.Publish? && !a.Visit?
    requires s in Step(t, a).subs && (s in t.subs ==> Counted(t, s))
    ensures Counted(Step(t, a), s)
  {
    var u := Step(t, a);
    if s in t.subs {
      SamePending(t, u, s);
    } else {
      assert Pending(u, s) == {};
    }
  }

  lemma OrderAfterVisit(t: State, a: Action, s: SubId)
    requires Numbered(t) && Enabled(t, a) && a.Visit? && s in t.subs && InOrder(t, s) && PublishedOk(t, s)
    ensures InOrder(Step(t, a), s) && PublishedOk(Step(t, a), s)
  {
  }

  lemma OrderAfterUnlock(t: State, a: Action, s: SubId)
    requires Numbered(t) && Enabled(t, a) && a.Unlock? && s in t.subs && InOrder(t, s)
    ensures InOrder(Step(t, a), s)
  {
  }

  lemma OrderAfterOther(t: State, a: Action, s: SubId)
    requires Numbered(t) && Enabled(t, a) && !a.Visit? && !a.Unlock? && s in Step(t, a).subs
    requires s in t.subs ==> InOrder(t, s)
    ensures InOrder(Step(t, a), s)
  {
  }

  lemma PublishedAfterOther(t: State, a: Action, s: SubId)
    requires Enabled(t, a) && !a.Visit? && s in Step(t, a).subs && (s in t.subs ==> PublishedOk(t, s))
    ensures PublishedOk(Step(t, a), s)
  {
  }

  lemma OrderKept(t: State, a: Action, s: SubId)
    requires Numbered(t) && Enabled(t, a) && s in Step(t, a).subs
    requires s in t.subs ==> InOrder(t, s) && PublishedOk(t, s)
    ensures InOrder(Step(t, a), s) && PublishedOk(Step(t, a), s)
  {
    if a.Visit? {
      OrderAfterVisit(t, a, s);
    } else {
      PublishedAfterOther(t, a, s);
      if a.Unlock? {
        OrderAfterUnlock(t, a, s);
      } else {
        OrderAfterOther(t, a, s);
      }
    }
  }

  lemma StepKeeps(t: State, a: Action)
    requires Inv(t) && Enabled(t, a)
    ensures Inv(Step(t, a))
  {
    StructureKept(t, a);
    NumberedKept(t, a);
    forall s | s in Step(t, a).subs ensures SubOk(Step(t, a), s) {
      assert s in t.subs ==> SubOk(t, s);
      OrderKept(t, a, s);
      if a.Publish? {
        CountedAfterPublish(t, a, s);
      } else if a.Visit? {
        CountedAfterVisit(t, a, s);
      } else {
        CountedAfterOther(t, a, s);
      }
    }
  }

  predicate Legal(log: seq<Action>)
    decreases |log|, 0
  {
    log == [] || (Legal(log[..|log| - 1]) && Enabled(Run(log[..|log| - 1]), log[|log| - 1]))
  }

  function Run(log: seq<Action>): State
    requires Legal(log)
    decreases |log|, 1
  {
    if log == [] then EMPTY else Step(Run(log[..|log| - 1]), log[|log| - 1])
  }

  lemma {:induction false} RunKeeps(log: seq<Action>)
    requires Legal(log)
    ensures Inv(Run(log))
  {
    if log != [] {
      var before, a := log[..|log| - 1], log[|log| - 1];
      RunKeeps(before);
      StepKeeps(Run(before), a);
    }
  }

  /** In every interleaving of publishers, readers, subscribes and closes, nobody sends on a
      closed channel. */
  lemma NoSendOnClosed(log: seq<Action>, p: PubId, s: SubId)
    requires Legal(log)
    ensures !Run(log).panicked
    ensures var t := Run(log);
      p in t.publishers && s in t.publishers[p].todo ==> s in t.subs && !t.subs[s].closed
  {
    RunKeeps(log);
  }

  /** An event offered is accepted exactly if fewer accepted events than the buffer holds are still untaken, or an
      unbuffered subscriber waits for one; otherwise it is counted as dropped. */
  lemma AcceptedExactlyWhen(log: seq<Action>, p: PubId, s: SubId, waits: bool)
    requires Legal(log) && Enabled(Run(log), Visit(p, s, waits))
    requires Run(log).subs[s].Matches(Run(log).publishers[p].post.event)
    ensures var t := Run(log);
      var before, after := t.subs[s], Step(t, Visit(p, s, waits)).subs[s];
      var room := |Accepted(before.offers)| < |before.taken| + before.cap || (before.cap == 0 && waits);
      && after.offers == before.offers + [Offer(t.publishers[p].post, room)]
      && after.dropped == before.dropped + (if room then 0 else 1)
  {
    RunKeeps(log);
    assert Conserved(Run(log).subs[s]);
  }

  /** The events published in a run, in order. */
  function Events(log: seq<Action>): seq<Event> {
    if log == [] then []
    else Events(log[..|log| - 1]) + (if log[|log| - 1].Publish? then [log[|log| - 1].event] else [])
  }

  lemma StepPublishes(t: State, a: Action, s: SubId)
    requires Enabled(t, a) && s in Step(t, a).subs
    ensures forall x :: x in Step(t, a).subs[s].published ==>
              (s in t.subs && x in t.subs[s].published) || (a.Publish? && x == Post(t.count, a.event))
  {
  }

  /** What a subscription says was published, was, under that number. */
  lemma {:induction false} PublishedAreEvents(log: seq<Action>, s: SubId, x: Post)
    requires Legal(log) && s in Run(log).subs && x in Run(log).subs[s].published
    ensures x.n < |Events(log)| && Events(log)[x.n] == x.event
  {
    var before, a := log[..|log| - 1], log[|log| - 1];
    CountIsEvents(before);
    StepPublishes(Run(before), a, s);
    if s in Run(before).subs && x in Run(before).subs[s].published {
      PublishedAreEvents(before, s, x);
    }
  }

  /** The topics `s` listens to after the run; `None` if it does not listen. */
  function Listens(log: seq<Action>, s: SubId): Option<Option<set<Topic>>> {
    if log == [] then None
    else
      match log[|log| - 1]
      case Subscribe(x, topics, _) => if x == s then Some(topics) else Listens(log[..|log| - 1], s)
      case Unregister(x) => if x == s then None else Listens(log[..|log| - 1], s)
      case _ => Listens(log[..|log| - 1], s)
  }

  /** The events published while `s` listened, on its topics, with their numbers: what a perfect bus
      would have handed it, read off the run's log alone. */
  function Heard(log: seq<Action>, s: SubId): seq<Post> {
    if log == [] then []
    else
      var before, a := log[..|log| - 1], log[|log| - 1];
      var l := Listens(before, s);
      if a.Publish? && l.Some? && (l.value.None? || a.event.topic in l.value.value)
      then Heard(before, s) + [Post(|Events(before)|, a.event)]
      else Heard(before, s)
  }

  /** `s` listened when the log's action `i` published `x`, an event on its topics. */
  predicate HeardAt(log: seq<Action>, s: SubId, i: nat, x: Post) {
    && i < |log| && log[i].Publish? && x == Post(|Events(log[..i])|, log[i].event)
    && var l := Listens(log[..i], s);
       l.Some? && (l.value.None? || x.event.topic in l.value.value)
  }

  /** `Heard` has exactly those. */
  lemma {:induction false} HeardIs(log: seq<Action>, s: SubId, x: Post)
    ensures x in Heard(log, s) <==> exists i: nat :: HeardAt(log, s, i, x)
  {
    if log != [] {
      var n := |log| - 1;
      var before := log[..n];
      HeardIs(before, s, x);
      if i: nat :| HeardAt(log, s, i, x) {
        if i < n {
          assert before[..i] == log[..i];
          assert HeardAt(before, s, i, x);
        }
      }
      if i: nat :| HeardAt(before, s, i, x) {
        assert before[..i] == log[..i];
        assert HeardAt(log, s, i, x);
      }
      if x in Heard(log, s) && x !in Heard(before, s) {
        assert HeardAt(log, s, n, x);
      }
    }
  }

  /** What the state says of a subscription is what the log says. */
  predicate Agrees(t: State, s: SubId, l: Option<Option<set<Topic>>>, heard: seq<Post>) {
    && (s in t.registered <==> l.Some?)
    && (if s in t.subs then t.subs[s].published == heard && (l.Some? ==> t.subs[s].topics == l.value)
        else heard == [] && l.None?)
  }

  lemma AgreesStep(t: State, a: Action, s: SubId, l: Option<Option<set<Topic>>>, heard: seq<Post>)
    requires Structure(t) && Enabled(t, a) && Agrees(t, s, l, heard)
    ensures var l' := match a
                      case Subscribe(x, topics, _) => if x == s then Some(topics) else l
                      case Unregister(x) => if x == s then None else l
                      case _ => l;
      var heard' := if a.Publish? && l.Some? && (l.value.None? || a.event.topic in l.value.value)
                    then heard + [Post(t.count, a.event)] else heard;
      Agrees(Step(t, a), s, l', heard')
  {
  }

  /** The history a subscription carries is what the log says it should have heard. */
  lemma {:induction false} PublishedIsHeard(log: seq<Action>, s: SubId)
    requires Legal(log)
    ensures Agrees(Run(log), s, Listens(log, s), Heard(log, s))
  {
    if log != [] {
      var before, a := log[..|log| - 1], log[|log| - 1];
      PublishedIsHeard(before, s);
      RunKeeps(before);
      CountIsEvents(before);
      AgreesStep(Run(before), a, s, Listens(before, s), Heard(before, s));
    }
  }

  /** What a subscriber got (taken or still buffered) are the accepted offers, in order, and no more
      than the buffer holds is waiting; the rest of the offers were dropped and counted. The events
      offered, with those some publisher is still to offer, are exactly the matching events
      published while it was subscribed: none missing, none twice, none invented. */
  lemma BusConserves(log: seq<Action>, s: SubId)
    requires Legal(log) && s in Run(log).subs
    ensures var t := Run(log);
      var sub := t.subs[s];
      && sub.taken + sub.buffer == Accepted(sub.offers)
      && |sub.buffer| <= sub.cap
      && sub.dropped + |Accepted(sub.offers)| == |sub.offers|
      && multiset(Posts(sub.offers)) + multiset(Pending(t, s)) == multiset(Heard(log, s))
      && (t.publishers == map[] ==> |sub.taken| + |sub.buffer| + sub.dropped == |Heard(log, s)|)
  {
    RunKeeps(log);
    PublishedIsHeard(log, s);
    var t := Run(log);
    assert SubOk(t, s);
    if t.publishers == map[] {
      assert Pending(t, s) == {};
      assert |multiset(Posts(t.subs[s].offers))| == |multiset(t.subs[s].published)|;
    }
  }

  lemma {:induction false} CountIsEvents(log: seq<Action>)
    requires Legal(log)
    ensures Run(log).count == |Events(log)|
  {
    if log != [] {
      CountIsEvents(log[..|log| - 1]);
    }
  }

  /** The publish numbered `a` was over before the one numbered `b` began. */
  predicate Before(t: State, a: nat, b: nat) {
    a in t.ended && t.ended[a] <= b
  }

  /** No event is offered ahead of one whose Publish was over before its own began. */
  lemma OffersFollowPublishing(log: seq<Action>, s: SubId, i: nat, k: nat)
    requires Legal(log) && s in Run(log).subs && i < k < |Run(log).subs[s].offers|
    ensures var os := Run(log).subs[s].offers; !Before(Run(log), os[k].post.n, os[i].post.n)
  {
    RunKeeps(log);
    assert SubOk(Run(log), s);
  }

  /** If no two publishes overlapped, events come in the order they were published. */
  lemma NoOverlapInOrder(log: seq<Action>, s: SubId, i: nat, k: nat)
    requires Legal(log) && s in Run(log).subs && i < k < |Run(log).subs[s].offers|
    requires forall a: nat, b: nat :: a < b < Run(log).count ==> Before(Run(log), a, b)
    ensures var os := Run(log).subs[s].offers; os[i].post.n < os[k].post.n
  {
    RunKeeps(log);
    var t := Run(log);
    var os, ps := t.subs[s].offers, t.subs[s].published;
    assert SubOk(t, s);
    OffersFollowPublishing(log, s, i, k);
    OfferedIsPublished(t, s, i);
    OfferedIsPublished(t, s, k);
    if os[i].post.n == os[k].post.n {
      OfferedOnce(t, s, i, k);
    }
  }

  lemma OfferedIsPublished(t: State, s: SubId, i: nat)
    requires s in t.subs && SubOk(t, s) && i < |t.subs[s].offers|
    ensures t.subs[s].offers[i].post in t.subs[s].published
  {
    assert Posts(t.subs[s].offers)[i] in multiset(Posts(t.subs[s].offers));
    assert t.subs[s].offers[i].post in multiset(t.subs[s].published);
  }

  lemma {:induction false} DistinctOnce(ps: seq<Post>, x: Post)
    requires forall i, k :: 0 <= i < k < |ps| ==> ps[i].n < ps[k].n
    ensures multiset(ps)[x] <= 1
  {
    if ps != [] {
      var n := |ps| - 1;
      DistinctOnce(ps[..n], x);
      assert ps == ps[..n] + [ps[n]];
      if ps[n] == x {
        assert x !in ps[..n];
      }
    }
  }

  lemma TwiceCounts(ps: seq<Post>, i: nat, k: nat)
    requires i < k < |ps| && ps[i] == ps[k]
    ensures multiset(ps)[ps[i]] >= 2
  {
    assert ps == ps[..k] + [ps[k]] + ps[k + 1..];
    assert ps[..k][i] in multiset(ps[..k]);
  }

  lemma OfferedOnce(t: State, s: SubId, i: nat, k: nat)
    requires s in t.subs && SubOk(t, s) && i < k < |t.subs[s].offers|
    ensures t.subs[s].offers[i].post.n != t.subs[s].offers[k].post.n
  {
    var os, ps := t.subs[s].offers, t.subs[s].published;
    OfferedIsPublished(t, s, i);
    OfferedIsPublished(t, s, k);
    if os[i].post.n == os[k].post.n {
      var a :| 0 <= a < |ps| && ps[a] == os[i].post;
      var b :| 0 <= b < |ps| && ps[b] == os[k].post;
      assert a == b;
      TwiceCounts(Posts(os), i, k);
      DistinctOnce(ps, os[i].post);
      assert false;
    }
  }

  /** `after` is `before` with the event published to it: offered once if it matches. */
  predicate Offered(before: Sub, post: Post, after: Sub) {
    var s := before.(published := before.published + [post]);
    if before.Matches(post.event) then after == Send(s, post, true) || after == Send(s, post, false)
    else after == before
  }

  /** With publishes one after the other, a subscriber is offered what is published, in that order. */
  predicate Sequential(s: Sub) {
    Conserved(s) && Posts(s.offers) == s.published
  }

  // ---- the objects ------------------------------------------------------------------------

  class Subscription {
    var sub: Sub

    constructor (topics: Option<set<Topic>>, buf: nat)
      ensures sub == Sub(topics, buf, [], [], 0, false, false, [], [])
    {
      sub := Sub(topics, buf, [], [], 0, false, false, [], []);
    }

    /** Offers an event published while the subscription is registered. */
    method Offer(post: Post)
      requires Sequential(sub)
      modifies this
      ensures Offered(old(sub), post, sub) && Sequential(sub)
      ensures sub.closing == old(sub).closing && sub.closed == old(sub).closed
      ensures old(sub).Matches(post.event) && |old(sub).buffer| < old(sub).cap ==>
                sub.buffer == old(sub).buffer + [post.event] && sub.dropped == old(sub).dropped
      ensures old(sub).Matches(post.event) && |old(sub).buffer| == old(sub).cap > 0 ==>
                sub.buffer == old(sub).buffer && sub.dropped == old(sub).dropped + 1
    {
      if sub.Matches(post.event) {
        var waits: bool := *;
        SendConserves(sub.(published := sub.published + [post]), post, waits);
        sub := Send(sub.(published := sub.published + [post]), post, waits);
      }
    }

    /** Receives from C: the oldest buffered event. */
    method Receive() returns (e: Option<Event>)
      requires Sequential(sub)
      modifies this
      ensures Sequential(sub)
      ensures old(sub).buffer == [] ==> e.None? && sub == old(sub)
      ensures old(sub).buffer != [] ==>
                && e == Some(old(sub).buffer[0])
                && sub == old(sub).(buffer := old(sub).buffer[1..], taken := old(sub).taken + [e.value])
    {
      if sub.buffer == [] {
        return None;
      }
      TakeConserves(sub);
      e := Some(sub.buffer[0]);
      sub := sub.(buffer := sub.buffer[1..], taken := sub.taken + [e.value]);
    }
  }

  class Bus {
    var subs: set<Subscription>
    var count: nat   // publishes so far

    ghost predicate Valid()
      reads this, subs
    {
      forall s :: s in subs ==> !s.sub.closing && !s.sub.closed && Sequential(s.sub)
    }

    constructor ()
      ensures Valid() && subs == {}
    {
      subs, count := {}, 0;
    }

    method Subscribe(buf: nat, topics: set<Topic>) returns (s: Subscription)
      requires Valid()
      modifies this
      ensures Valid() && fresh(s) && subs == old(subs) + {s} && s.sub.cap == buf
      ensures s.sub.topics == if topics == {} then None else Some(topics)
    {
      s := new Subscription(if topics == {} then None else Some(topics), buf);
      assert Accepted([]) == [] && Posts([]) == [];
      subs := subs + {s};
    }

    /** Delivers `e` to every matching subscriber, never blocking. */
    method Publish(e: Event)
      requires Valid()
      modifies this`count, subs
      ensures Valid() && subs == old(subs)
      ensures forall s :: s in subs ==> Offered(old(s.sub), Post(old(count), e), s.sub)
    {
      var post := Post(count, e);
      var todo := subs;
      while todo != {}
        invariant todo <= subs && subs == old(subs)
        invariant forall s :: s in todo ==> s.sub == old(s.sub)
        invariant forall s :: s in subs - todo ==> Offered(old(s.sub), post, s.sub)
        invariant Valid() && count == post.n
        decreases todo
      {
        var s :| s in todo;
        todo := todo - {s};
        s.Offer(post);
      }
      count := count + 1;
    }

    /** Ends a subscription: out of the subscriber set first, then the channel closes. Closing
        it again does nothing. */
    method Close(s: Subscription)
      requires Valid()
      modifies this`subs, s
      ensures Valid() && subs == old(subs) - (if old(s.sub).closing then {} else {s})
      ensures s.sub == if old(s.sub).closing then old(s.sub) else old(s.sub).(closing := true, closed := true)
    {
      if !s.sub.closing {
        subs := subs - {s};
        s.sub := s.sub.(closing := true);
        s.sub := s.sub.(closed := true);
      }
    }
  }
}
