/**
 The permission prompt: requests queued by the engines' own threads, withdrawn by them at any
 moment, shown one at a time, answered by the user, and stored.

 A backend keeps its callbacks in a registry beside the queue the application reads, and both an
 arrival and a withdrawal take two steps, registry first. Every step of a backend may fall between
 any two of the application's. Ids come from one counter for the whole process.
*/
module Permissions {
  import opened Options

  type EngineId = nat
  type ResolveId = nat
  type Capability = nat

  datatype Decision = Allowed | Denied

  datatype Outcome = Allow(remember: bool) | Deny(remember: bool) | Defer

  datatype Pending = Pending(origin: string, capabilities: seq<Capability>, resolveId: Option<ResolveId>)

  datatype Identity = Tracked(id: ResolveId) | Untracked(origin: string, capabilities: seq<Capability>)

  /**
   One engine: its queue and the callbacks it holds. The other fields only record the run. Of
   callbacks: how often each has fired, with what, and which the shutdown fired. Of requests: those
   withdrawn, every tracked one ever made, those registered but not queued yet, those the backend took
   off the queue itself, how often each was answered and with what, and the order of arrival.
  */
  datatype Backend = Backend(
    queue: seq<Pending>, registry: set<ResolveId>,
    fired: multiset<ResolveId>, delivered: map<ResolveId, Outcome>, deferred: set<ResolveId>,
    retired: set<ResolveId>, minted: map<ResolveId, Pending>, arriving: set<ResolveId>, dropped: set<ResolveId>,
    answered: multiset<ResolveId>, verdicts: map<ResolveId, Outcome>, arrivals: seq<Pending>)

  /** The request on screen, and the engine whose queue it was read from. */
  datatype Shown = Shown(pending: Pending, engine: EngineId)

  /** An answer that was applied: what the user read, and what it was applied to. */
  datatype Answer = Answer(read: Pending, applied: Pending, outcome: Outcome)

  datatype State = State(
    backends: map<EngineId, Backend>, nextId: ResolveId, active: EngineId,
    prompt: Option<Shown>, promptId: Option<Identity>,
    store: map<(string, Capability), Decision>, answers: seq<Answer>)

  datatype Event =
    | Register(engine: EngineId, origin: string, capabilities: seq<Capability>)
    | Push(engine: EngineId, id: ResolveId)
    | PushUntracked(engine: EngineId, origin: string, capabilities: seq<Capability>)
    | Withdraw(engine: EngineId, id: ResolveId)
    | Unqueue(engine: EngineId, id: ResolveId)
    | SwitchEngine(engine: EngineId)
    | SyncPrompt
    | Respond(outcome: Outcome)
    | Shutdown

  // ---- identities -------------------------------------------------------------------------------

  function IdentityOf(p: Pending): Identity {
    if p.resolveId.Some? then Tracked(p.resolveId.value) else Untracked(p.origin, p.capabilities)
  }

  predicate Matches(i: Identity, p: Pending) {
    match i
    case Tracked(id) => p.resolveId == Some(id)
    case Untracked(origin, caps) => p.resolveId.None? && p.origin == origin && p.capabilities == caps
  }

  function Front(q: seq<Pending>): Option<Pending> {
    if q == [] then None else Some(q[0])
  }

  /** `resolve_target`: the front, only if it is the entry that was shown. */
  predicate Applies(front: Option<Pending>, shown: Option<Identity>) {
    front.Some? && shown.Some? && Matches(shown.value, front.value)
  }

  // ---- the backend's half -----------------------------------------------------------------------

  /** A callback leaves the registry when it fires, so a second resolve finds nothing. */
  function Resolve(b: Backend, id: Option<ResolveId>, o: Outcome): Backend {
    if id.Some? && id.value in b.registry
    then b.(registry := b.registry - {id.value}, fired := b.fired + multiset{id.value},
            delivered := b.delivered[id.value := o])
    else b
  }

  function ResolveEach(b: Backend, ps: seq<Pending>): Backend
    decreases |ps|
  {
    if ps == [] then b else ResolveEach(Resolve(b, ps[0].resolveId, Defer), ps[1..])
  }

  function WithoutId(q: seq<Pending>, id: ResolveId): (r: seq<Pending>)
    ensures forall p :: p in r <==> p in q && p.resolveId != Some(id)
    ensures multiset(r) <= multiset(q)
    ensures forall p: Pending :: p.resolveId != Some(id) ==> multiset(r)[p] == multiset(q)[p]
  {
    if q == [] then []
    else
      var before, last := q[..|q| - 1], q[|q| - 1];
      assert q == before + [last];
      if last.resolveId == Some(id) then WithoutId(before, id) else WithoutId(before, id) + [last]
  }

  /** What the queue of a backend names. */
  function QueuedIds(q: seq<Pending>): set<ResolveId> {
    set p | p in q && p.resolveId.Some? :: p.resolveId.value
  }

  /** Closing the browsers defers every callback still held. */
  function DeferAll(b: Backend): Backend {
    b.(registry := {}, fired := b.fired + multiset(b.registry),
       delivered := b.delivered + (map id | id in b.registry :: Defer), deferred := b.deferred + b.registry)
  }

  /** And the queue's leftovers then resolve to nothing. */
  function ShutBackend(b: Backend): Backend {
    ResolveEach(Shut(b), b.queue)
  }

  function Shut(b: Backend): Backend {
    DeferAll(b).(queue := [], dropped := b.dropped + QueuedIds(b.queue))
  }

  // ---- the application's half -------------------------------------------------------------------

  function Clear(s: State): State {
    s.(prompt := None, promptId := None)
  }

  /** What is on screen once a queue's front is known: the prompt that is up, if it still is the front, or the front. */
  function NextPrompt(prompt: Option<Shown>, id: Option<Identity>, front: Option<Pending>, engine: EngineId)
    : (Option<Shown>, Option<Identity>)
  {
    if prompt.Some? && Applies(front, id) then (prompt, id)
    else if front.Some? then (Some(Shown(front.value, engine)), Some(IdentityOf(front.value)))
    else (None, if prompt.Some? then None else id)
  }

  /** `sync_permissions_prompt`. */
  function Sync(s: State): State {
    if s.active !in s.backends then Clear(s)
    else
      var next := NextPrompt(s.prompt, s.promptId, Front(s.backends[s.active].queue), s.active);
      s.(prompt := next.0, promptId := next.1)
  }

  function StoreAll(store: map<(string, Capability), Decision>, origin: string, caps: seq<Capability>, d: Decision)
    : map<(string, Capability), Decision>
  {
    if caps == [] then store
    else StoreAll(store, origin, caps[..|caps| - 1], d)[(origin, caps[|caps| - 1]) := d]
  }

  function Remembered(store: map<(string, Capability), Decision>, p: Pending, o: Outcome)
    : map<(string, Capability), Decision>
  {
    match o
    case Allow(true) => StoreAll(store, p.origin, p.capabilities, Allowed)
    case Deny(true) => StoreAll(store, p.origin, p.capabilities, Denied)
    case _ => store
  }

  predicate AnswerLands(s: State) {
    s.active in s.backends && Applies(Front(s.backends[s.active].queue), s.promptId)
  }

  /** The front taken off its queue. */
  function Answered(b: Backend, o: Outcome): Backend
    requires b.queue != []
  {
    var id := b.queue[0].resolveId;
    b.(queue := b.queue[1..],
       answered := if id.Some? then b.answered + multiset{id.value} else b.answered,
       verdicts := if id.Some? then b.verdicts[id.value := o] else b.verdicts)
  }

  /** The front taken off its queue, remembered and resolved. */
  function Applied(s: State, o: Outcome): State
    requires AnswerLands(s)
  {
    var b := s.backends[s.active];
    var p := b.queue[0];
    var read := if s.prompt.Some? then s.prompt.value.pending else p;
    s.(backends := s.backends[s.active := Resolve(Answered(b, o), p.resolveId, o)],
       store := Remembered(s.store, p, o),
       answers := s.answers + [Answer(read, p, o)])
  }

  /** `resolve_permission`: the answer goes to the entry on screen or to nothing. */
  function Responded(s: State, o: Outcome): State {
    if AnswerLands(s) then Sync(Clear(Applied(s, o))) else Sync(Clear(s))
  }

  /** `enqueue_to_both`, first half: the callback goes into the registry under a new id. */
  function RegisterAt(b: Backend, p: Pending): Backend
    requires p.resolveId.Some?
  {
    b.(registry := b.registry + {p.resolveId.value}, minted := b.minted[p.resolveId.value := p],
       arriving := b.arriving + {p.resolveId.value})
  }

  /** Second half: what was registered is queued, once. */
  function PushAt(b: Backend, id: ResolveId): Backend {
    if id in b.arriving && id in b.minted
    then b.(queue := b.queue + [b.minted[id]], arriving := b.arriving - {id},
            arrivals := b.arrivals + [b.minted[id]])
    else b
  }

  /** An untracked request has no callback to register. */
  function PushUntrackedAt(b: Backend, p: Pending): Backend {
    b.(queue := b.queue + [p], arrivals := b.arrivals + [p])
  }

  function UnqueueAt(b: Backend, id: ResolveId): Backend {
    b.(queue := WithoutId(b.queue, id), dropped := b.dropped + {id})
  }

  function WithdrawAt(b: Backend, id: ResolveId): Backend {
    if id in b.registry then b.(registry := b.registry - {id}, retired := b.retired + {id}) else b
  }

  function ShutAll(bs: map<EngineId, Backend>): map<EngineId, Backend> {
    map e | e in bs :: ShutBackend(bs[e])
  }

  function Step(s: State, e: Event): State {
    match e
    case Register(en, origin, caps) =>
      if en in s.backends
      then s.(backends := s.backends[en := RegisterAt(s.backends[en], Pending(origin, caps, Some(s.nextId)))],
              nextId := s.nextId + 1)
      else s
    case Push(en, id) => if en in s.backends then s.(backends := s.backends[en := PushAt(s.backends[en], id)]) else s
    case PushUntracked(en, origin, caps) =>
      if en in s.backends
      then s.(backends := s.backends[en := PushUntrackedAt(s.backends[en], Pending(origin, caps, None))]) else s
    case Withdraw(en, id) =>
      if en in s.backends then s.(backends := s.backends[en := WithdrawAt(s.backends[en], id)]) else s
    case Unqueue(en, id) =>
      if en in s.backends then s.(backends := s.backends[en := UnqueueAt(s.backends[en], id)]) else s
    case SwitchEngine(en) => s.(active := en)
    case SyncPrompt => Sync(s)
    case Respond(o) => Responded(s, o)
    case Shutdown => s.(backends := ShutAll(s.backends))
  }

  function Run(s: State, events: seq<Event>): State
    decreases |events|
  {
    if events == [] then s else Run(Step(s, events[0]), events[1..])
  }

  // ---- invariants -------------------------------------------------------------------------------

  /** What has become of one callback and its request. */
  datatype Callback = Callback(
    minted: bool, held: bool, fired: nat, retired: bool, delivered: Option<Outcome>, deferred: bool,
    answered: nat, verdict: Option<Outcome>)

  function LookUp(m: map<ResolveId, Outcome>, id: ResolveId): Option<Outcome> {
    if id in m then Some(m[id]) else None
  }

  function CallbackOf(b: Backend, id: ResolveId): Callback {
    Callback(id in b.minted, id in b.registry, b.fired[id], id in b.retired, LookUp(b.delivered, id),
             id in b.deferred, b.answered[id], LookUp(b.verdicts, id))
  }

  /**
   It is held, or fired once, or withdrawn, and never two of these; an answered request's is no longer
   held; and what it was fired with is the answer its request was given, or a deferral at shutdown.
  */
  predicate InOrder(c: Callback) {
    && (c.minted <==> c.held || c.fired > 0 || c.retired)
    && (c.held ==> c.fired == 0 && !c.retired)
    && c.fired <= 1 && (c.fired == 1 ==> !c.retired)
    && (c.verdict.Some? <==> c.answered > 0)
    && (c.verdict.Some? ==> c.minted && !c.held)
    && (c.delivered.Some? <==> c.fired > 0)
    && (c.deferred ==> c.delivered == Some(Defer))
    && (c.delivered.Some? && !c.deferred ==> c.delivered == c.verdict)
  }

  predicate AsMinted(minted: map<ResolveId, Pending>, p: Pending) {
    p.resolveId.Some? ==> p.resolveId.value in minted && minted[p.resolveId.value] == p
  }

  /** The queue holds requests as they were made, each under its own id. */
  ghost predicate AllMinted(queue: seq<Pending>, minted: map<ResolveId, Pending>) {
    && (forall p :: p in queue ==> AsMinted(minted, p))
    && (forall id :: id in minted ==> minted[id].resolveId == Some(id))
  }

  function Places(queue: seq<Pending>, p: Pending, arriving: bool, answered: nat): nat {
    multiset(queue)[p] + (if arriving then 1 else 0) + answered
  }

  /**
   Every tracked request is on its way to the queue, in it, or answered, and at most once of all these;
   and exactly once unless the backend took it off the queue.
  */
  ghost predicate Once(queue: seq<Pending>, minted: map<ResolveId, Pending>, arriving: set<ResolveId>,
                       dropped: set<ResolveId>, answered: multiset<ResolveId>)
  {
    && arriving <= minted.Keys
    && (forall id :: id in answered ==> id in minted)
    && (forall id :: id in minted ==>
          var n := Places(queue, minted[id], id in arriving, answered[id]);
          n <= 1 && (id !in dropped ==> n == 1))
  }

  /** `q` is `all` with some entries left out and the others in their order. */
  predicate Subsequence(q: seq<Pending>, all: seq<Pending>)
    decreases |all|
  {
    q == []
    || (all != []
        && var before := all[..|all| - 1];
           || Subsequence(q, before)
           || (q[|q| - 1] == all[|all| - 1] && Subsequence(q[..|q| - 1], before)))
  }

  ghost predicate CallbacksInv(b: Backend) {
    forall id :: InOrder(CallbackOf(b, id))
  }

  ghost predicate QueueInv(b: Backend) {
    && AllMinted(b.queue, b.minted)
    && Once(b.queue, b.minted, b.arriving, b.dropped, b.answered)
    && Subsequence(b.queue, b.arrivals)
  }

  ghost predicate BackendInv(b: Backend) {
    CallbacksInv(b) && QueueInv(b)
  }

  /** The prompt and its identity are there together, and belong to one request as its engine made it. */
  ghost predicate UiInv(s: State) {
    && (s.prompt.Some? <==> s.promptId.Some?)
    && (s.prompt.Some? ==>
          && s.promptId.value == IdentityOf(s.prompt.value.pending)
          && s.prompt.value.engine in s.backends
          && AsMinted(s.backends[s.prompt.value.engine].minted, s.prompt.value.pending))
  }

  /** The ids handed out so far are below the counter, and no two engines share one. */
  ghost predicate OneCounter(bs: map<EngineId, Backend>, nextId: ResolveId) {
    && (forall e, id :: e in bs && id in bs[e].minted ==> id < nextId)
    && (forall d, e, id :: d in bs && e in bs && d != e ==> !(id in bs[d].minted && id in bs[e].minted))
  }

  ghost predicate Inv(s: State) {
    UiInv(s) && OneCounter(s.backends, s.nextId) && forall e :: e in s.backends ==> BackendInv(s.backends[e])
  }

  lemma RegisterSettles(b: Backend, p: Pending)
    requires BackendInv(b) && p.resolveId.Some? && p.resolveId.value !in b.minted
    ensures BackendInv(RegisterAt(b, p)) && forall q :: AsMinted(b.minted, q) ==> AsMinted(RegisterAt(b, p).minted, q)
  {
    RegisterKeepsCallbacks(b, p);
    RegisterKeepsQueue(b, p);
    hide CallbacksInv, QueueInv;
  }

  lemma RegisterKeepsCallbacks(b: Backend, p: Pending)
    requires BackendInv(b) && p.resolveId.Some? && p.resolveId.value !in b.minted
    ensures CallbacksInv(RegisterAt(b, p))
  {
    hide QueueInv;
    var r := RegisterAt(b, p);
    forall id: ResolveId ensures InOrder(CallbackOf(r, id)) {
      assert InOrder(CallbackOf(b, id));
    }
  }

  lemma RegisterKeepsQueue(b: Backend, p: Pending)
    requires BackendInv(b) && p.resolveId.Some? && p.resolveId.value !in b.minted
    ensures QueueInv(RegisterAt(b, p))
  {
    hide CallbacksInv, Subsequence, Once;
    assert p !in b.queue;
    RegisterKeepsOnce(b, p);
  }

  lemma RegisterKeepsOnce(b: Backend, p: Pending)
    requires QueueInv(b) && p.resolveId.Some? && p.resolveId.value !in b.minted && p !in b.queue
    ensures var r := RegisterAt(b, p); Once(r.queue, r.minted, r.arriving, r.dropped, r.answered)
  {
    hide Subsequence, AllMinted;
    var id, r := p.resolveId.value, RegisterAt(b, p);
    assert id !in b.answered;
    assert Places(b.queue, p, true, b.answered[id]) == 1;
    forall i | i in b.minted
      ensures Places(b.queue, r.minted[i], i in r.arriving, b.answered[i])
              == Places(b.queue, b.minted[i], i in b.arriving, b.answered[i]) {}
    hide Places;
  }

  lemma SubsequenceSnoc(q: seq<Pending>, all: seq<Pending>, p: Pending)
    requires Subsequence(q, all)
    ensures Subsequence(q + [p], all + [p])
  {
    assert (all + [p])[..|all|] == all && (q + [p])[..|q|] == q;
  }

  lemma {:induction false} SubsequenceDrops(q: seq<Pending>, all: seq<Pending>)
    requires Subsequence(q, all) && q != []
    ensures Subsequence(q[1..], all)
    decreases |all|
  {
    var before := all[..|all| - 1];
    if Subsequence(q, before) {
      SubsequenceDrops(q, before);
    } else if |q| > 1 {
      SubsequenceDrops(q[..|q| - 1], before);
      assert q[..|q| - 1][1..] == q[1..][..|q| - 2];
    }
  }

  lemma {:induction false} SubsequenceWithout(q: seq<Pending>, all: seq<Pending>, id: ResolveId)
    requires Subsequence(q, all)
    ensures Subsequence(WithoutId(q, id), all)
    decreases |all|
  {
    if q != [] {
      var before := all[..|all| - 1];
      if Subsequence(q, before) {
        SubsequenceWithout(q, before, id);
      } else {
        SubsequenceWithout(q[..|q| - 1], before, id);
        var kept := WithoutId(q[..|q| - 1], id);
        assert (kept + [q[|q| - 1]])[..|kept|] == kept;
      }
    }
  }

  lemma PushSettles(b: Backend, id: ResolveId)
    requires BackendInv(b)
    ensures BackendInv(PushAt(b, id)) && PushAt(b, id).minted == b.minted
  {
    hide CallbacksInv, Subsequence;
    if id in b.arriving {
      SubsequenceSnoc(b.queue, b.arrivals, b.minted[id]);
      var r := PushAt(b, id);
      assert forall q :: q in r.queue ==> q in b.queue || q == b.minted[id];
      SameCallbacks(b, r);
    }
  }

  /** The invariant of the callbacks does not look at the queue. */
  lemma SameCallbacks(b: Backend, r: Backend)
    requires CallbacksInv(b)
    requires r.minted == b.minted && r.registry == b.registry && r.fired == b.fired && r.retired == b.retired
    requires r.delivered == b.delivered && r.deferred == b.deferred
    requires r.answered == b.answered && r.verdicts == b.verdicts
    ensures CallbacksInv(r)
  {
    forall id: ResolveId ensures InOrder(CallbackOf(r, id)) {
      assert CallbackOf(r, id) == CallbackOf(b, id);
    }
    hide InOrder, CallbackOf;
  }

  /** Nor that of the queue at the callbacks. */
  lemma SameQueue(b: Backend, r: Backend)
    requires QueueInv(b)
    requires r.minted == b.minted && r.queue == b.queue && r.arrivals == b.arrivals
    requires r.arriving == b.arriving && r.dropped == b.dropped && r.answered == b.answered
    ensures QueueInv(r)
  {
    hide AllMinted, Once, Subsequence;
  }

  lemma PushUntrackedSettles(b: Backend, p: Pending)
    requires BackendInv(b) && p.resolveId.None?
    ensures BackendInv(PushUntrackedAt(b, p)) && PushUntrackedAt(b, p).minted == b.minted
  {
    hide CallbacksInv, Subsequence;
    SubsequenceSnoc(b.queue, b.arrivals, p);
    var r := PushUntrackedAt(b, p);
    assert forall q :: q in r.queue ==> q in b.queue || q == p;
    SameCallbacks(b, r);
  }

  lemma WithdrawSettles(b: Backend, id: ResolveId)
    requires BackendInv(b)
    ensures BackendInv(WithdrawAt(b, id)) && WithdrawAt(b, id).minted == b.minted
  {
    hide QueueInv;
    var r := WithdrawAt(b, id);
    SameQueue(b, r);
    forall i: ResolveId ensures InOrder(CallbackOf(r, i)) {
      assert InOrder(CallbackOf(b, i));
    }
  }

  lemma UnqueueSettles(b: Backend, id: ResolveId)
    requires BackendInv(b)
    ensures BackendInv(UnqueueAt(b, id)) && UnqueueAt(b, id).minted == b.minted
  {
    hide CallbacksInv, Once, Subsequence;
    SubsequenceWithout(b.queue, b.arrivals, id);
    UnqueueKeepsOnce(b, id);
    SameCallbacks(b, UnqueueAt(b, id));
    hide WithoutId;
  }

  lemma UnqueueKeepsOnce(b: Backend, id: ResolveId)
    requires AllMinted(b.queue, b.minted) && Once(b.queue, b.minted, b.arriving, b.dropped, b.answered)
    ensures Once(WithoutId(b.queue, id), b.minted, b.arriving, b.dropped + {id}, b.answered)
  {
    var q := WithoutId(b.queue, id);
    forall i | i in b.minted
      ensures var n := Places(q, b.minted[i], i in b.arriving, b.answered[i]);
              n <= 1 && (i !in b.dropped && i != id ==> n == 1)
    {
      assert Places(b.queue, b.minted[i], i in b.arriving, b.answered[i]) <= 1;
    }
    hide WithoutId, Places;
  }

  lemma FrontIsUnanswered(b: Backend)
    requires QueueInv(b) && b.queue != [] && b.queue[0].resolveId.Some?
    ensures var id := b.queue[0].resolveId.value;
            id in b.minted && b.minted[id] == b.queue[0] && b.answered[id] == 0
  {
    hide Subsequence;
    assert b.queue[0] in b.queue && multiset(b.queue)[b.queue[0]] > 0;
  }

  lemma CallbackInOrder(b: Backend, id: ResolveId)
    requires CallbacksInv(b)
    ensures InOrder(CallbackOf(b, id))
  {
  }

  /** What an answer does to its engine: the front goes, and its callback, if still held, gets the outcome. */
  lemma AnswerSettles(b: Backend, o: Outcome)
    requires BackendInv(b) && b.queue != []
    ensures var id, r := b.queue[0].resolveId, Resolve(Answered(b, o), b.queue[0].resolveId, o);
            && BackendInv(r) && r.minted == b.minted && r.queue == b.queue[1..]
            && (id.Some? ==> r.answered[id.value] == 1 && id.value !in r.registry)
            && (id.Some? && id.value in b.registry ==>
                  id.value in r.delivered && r.delivered[id.value] == o && r.fired[id.value] == 1)
  {
    hide CallbacksInv, QueueInv;
    if b.queue[0].resolveId.Some? { FrontIsUnanswered(b); }
    AnswerKeepsQueue(b, o);
    AnswerKeepsCallbacks(b, o);
  }

  lemma AnswerKeepsQueue(b: Backend, o: Outcome)
    requires BackendInv(b) && b.queue != []
    ensures QueueInv(Resolve(Answered(b, o), b.queue[0].resolveId, o))
  {
    hide CallbacksInv, Subsequence, Once;
    SubsequenceDrops(b.queue, b.arrivals);
    AnswerKeepsOnce(b, o);
    assert forall q :: q in b.queue[1..] ==> q in b.queue;
  }

  lemma AnswerKeepsOnce(b: Backend, o: Outcome)
    requires BackendInv(b) && b.queue != []
    ensures Once(b.queue[1..], b.minted, b.arriving, b.dropped, Answered(b, o).answered)
  {
    hide CallbacksInv, Subsequence, Places, AllMinted;
    var rest, answered := b.queue[1..], Answered(b, o).answered;
    if b.queue[0].resolveId.Some? { FrontIsUnanswered(b); }
    forall i | i in b.minted
      ensures Places(rest, b.minted[i], i in b.arriving, answered[i])
              == Places(b.queue, b.minted[i], i in b.arriving, b.answered[i])
    {
      AnswerMovesFront(b, o, i);
    }
  }

  /** An answered request is counted as answered instead of as queued. */
  lemma AnswerMovesFront(b: Backend, o: Outcome, i: ResolveId)
    requires AllMinted(b.queue, b.minted) && b.queue != [] && i in b.minted
    ensures Places(b.queue[1..], b.minted[i], i in b.arriving, Answered(b, o).answered[i])
            == Places(b.queue, b.minted[i], i in b.arriving, b.answered[i])
  {
    var p, rest := b.queue[0], b.queue[1..];
    assert b.queue == [p] + rest && p in b.queue;
    assert multiset(b.queue) == multiset{p} + multiset(rest);
    assert p == b.minted[i] <==> p.resolveId == Some(i);
  }

  lemma AnswerKeepsCallbacks(b: Backend, o: Outcome)
    requires BackendInv(b) && b.queue != []
    ensures var id, r := b.queue[0].resolveId, Resolve(Answered(b, o), b.queue[0].resolveId, o);
            && CallbacksInv(r)
            && (id.Some? ==> id.value !in r.registry)
            && (id.Some? && id.value in b.registry ==>
                  id.value in r.delivered && r.delivered[id.value] == o && r.fired[id.value] == 1)
  {
    hide QueueInv;
    var p, r := b.queue[0], Resolve(Answered(b, o), b.queue[0].resolveId, o);
    if p.resolveId.Some? { FrontIsUnanswered(b); }
    forall id: ResolveId ensures InOrder(CallbackOf(r, id)) {
      assert InOrder(CallbackOf(b, id));
      if p.resolveId != Some(id) { assert CallbackOf(r, id) == CallbackOf(b, id); }
    }
    if p.resolveId.Some? { assert InOrder(CallbackOf(b, p.resolveId.value)); }
  }

  lemma SameMintedKeepsCounter(bs: map<EngineId, Backend>, cs: map<EngineId, Backend>, nextId: ResolveId)
    requires OneCounter(bs, nextId) && cs.Keys == bs.Keys
    requires forall e :: e in bs ==> cs[e].minted == bs[e].minted
    ensures OneCounter(cs, nextId)
  {
  }

  lemma {:induction false} NothingLeftToResolve(b: Backend, ps: seq<Pending>)
    requires b.registry == {}
    ensures ResolveEach(b, ps) == b
    decreases |ps|
  {
    if ps != [] {
      NothingLeftToResolve(b, ps[1..]);
    }
  }

  /**
   At shutdown no callback is left: every tracked request ever made was fired exactly once, with the
   answer it was given or deferred, or withdrawn and never fired.
  */
  lemma ShutdownSettlesAll(b: Backend)
    requires BackendInv(b)
    ensures var r := ShutBackend(b);
            && BackendInv(r) && r.registry == {} && r.queue == [] && r.minted == b.minted && r.retired == b.retired
            && (forall id :: id in b.minted ==> r.fired[id] == if id in b.retired then 0 else 1)
            && (forall id :: id in b.minted && id !in b.retired ==>
                  id in r.delivered
                  && r.delivered[id] == if id in b.delivered then b.delivered[id] else Defer)
  {
    NothingLeftToResolve(Shut(b), b.queue);
    ShutKeepsQueue(b);
    ShutKeepsCallbacks(b);
    hide QueueInv;
  }

  lemma ShutKeepsQueue(b: Backend)
    requires BackendInv(b)
    ensures QueueInv(Shut(b))
  {
    hide CallbacksInv;
    forall id | id in b.minted && id !in QueuedIds(b.queue) ensures b.minted[id] !in b.queue {}
  }

  lemma ShutKeepsCallbacks(b: Backend)
    requires BackendInv(b)
    ensures CallbacksInv(Shut(b))
    ensures forall id :: id in b.minted ==> Shut(b).fired[id] == if id in b.retired then 0 else 1
    ensures forall id :: id in b.minted && id !in b.retired ==>
              id in Shut(b).delivered
              && Shut(b).delivered[id] == if id in b.delivered then b.delivered[id] else Defer
  {
    hide QueueInv;
    MembersOnce(b.registry);
    var r := Shut(b);
    forall id: ResolveId ensures InOrder(CallbackOf(r, id)) {
      ShutCallback(b, id);
    }
    forall id | id in b.minted
      ensures r.fired[id] == if id in b.retired then 0 else 1
      ensures id !in b.retired ==>
                id in r.delivered && r.delivered[id] == if id in b.delivered then b.delivered[id] else Defer
    {
      ShutCallback(b, id);
    }
  }

  lemma MembersOnce(s: set<ResolveId>)
    ensures forall id :: multiset(s)[id] == if id in s then 1 else 0
  {
  }

  /** A held callback is deferred; every other stays as it is. */
  lemma ShutCallback(b: Backend, id: ResolveId)
    requires CallbacksInv(b)
    ensures var c, d := CallbackOf(b, id), CallbackOf(Shut(b), id);
            InOrder(c) && InOrder(d)
            && d == if c.held then c.(held := false, fired := 1, delivered := Some(Defer), deferred := true) else c
  {
    MembersOnce(b.registry);
    assert InOrder(CallbackOf(b, id));
    hide CallbacksInv;
  }

  // ---- the prompt -------------------------------------------------------------------------------

  lemma NextPromptMinted(s: State)
    requires Inv(s) && s.active in s.backends
    ensures var q := s.backends[s.active].queue;
            q != [] ==> BackendInv(s.backends[s.active]) && AsMinted(s.backends[s.active].minted, q[0])
  {
    if s.backends[s.active].queue != [] {
      assert s.backends[s.active].queue[0] in s.backends[s.active].queue;
    }
  }

  /** After a sync exactly the front of the active engine's queue is on screen; a withdrawn request never lingers. */
  lemma SyncShowsFront(s: State)
    requires Inv(s)
    ensures var r := Sync(s);
            && Inv(r) && r == s.(prompt := r.prompt, promptId := r.promptId)
            && (r.prompt.Some? <==> s.active in s.backends && s.backends[s.active].queue != [])
            && (r.prompt.Some? ==> Applies(Front(s.backends[s.active].queue), r.promptId))
  {
    hide BackendInv, AsMinted, OneCounter;
    if s.active in s.backends {
      NextPromptMinted(s);
    }
  }

  lemma {:induction false} StoreAllIs(store: map<(string, Capability), Decision>, origin: string,
                                      caps: seq<Capability>, d: Decision, o: string, c: Capability)
    ensures var r := StoreAll(store, origin, caps, d);
            if o == origin && c in caps then (o, c) in r && r[(o, c)] == d
            else ((o, c) in r <==> (o, c) in store) && ((o, c) in r ==> r[(o, c)] == store[(o, c)])
  {
    if caps != [] {
      var n := |caps| - 1;
      StoreAllIs(store, origin, caps[..n], d, o, c);
      assert caps == caps[..n] + [caps[n]];
    }
  }

  /**
   An answer with nothing of the user's at the front, for whatever reason, changes neither store nor
   any queue, and reaches no backend.
  */
  lemma StaleAnswerIsDiscarded(s: State, o: Outcome)
    requires Inv(s) && !AnswerLands(s)
    ensures var r := Responded(s, o);
            Inv(r) && r.backends == s.backends && r.store == s.store && r.answers == s.answers
  {
    hide Sync, BackendInv, OneCounter;
    SyncShowsFront(Clear(s));
  }

  /**
   An answer that lands takes one entry off one queue and fires its callback if it is still held. The
   store changes for that entry alone, only when asked to remember, and exactly for its origin and
   its capabilities.
  */
  lemma AnswerAppliesOnce(s: State, o: Outcome)
    requires Inv(s) && AnswerLands(s)
    ensures var r, b := Responded(s, o), s.backends[s.active];
            var p := b.queue[0];
            && Inv(r)
            && r.answers == s.answers + [Answer(s.prompt.value.pending, p, o)]
            && r.backends == s.backends[s.active := Resolve(Answered(b, o), p.resolveId, o)]
            && r.store == Remembered(s.store, p, o)
  {
    hide Remembered, Sync, BackendInv, Resolve, Answered, OneCounter;
    var b := s.backends[s.active];
    AnswerSettles(b, o);
    var u := Clear(Applied(s, o));
    SameMintedKeepsCounter(s.backends, u.backends, s.nextId);
    SyncShowsFront(u);
  }

  /**
   The callback of the request that was answered gets exactly the user's outcome, once, and is let go;
   unless it was withdrawn or deferred before, and then nothing is delivered at all.
  */
  lemma AnswerReachesCallback(s: State, o: Outcome)
    requires Inv(s) && AnswerLands(s) && s.backends[s.active].queue[0].resolveId.Some?
    ensures var b, id := s.backends[s.active], s.backends[s.active].queue[0].resolveId.value;
            s.active in Step(s, Respond(o)).backends
            && var r := Step(s, Respond(o)).backends[s.active];
               && id !in r.registry && r.answered[id] == 1
               && (if id in b.registry
                   then id in r.delivered && r.delivered[id] == o && r.fired[id] == 1
                   else id in b.retired + b.deferred && r.fired == b.fired && r.delivered == b.delivered)
  {
    hide Responded, QueueInv, CallbacksInv, UiInv, OneCounter;
    var b := s.backends[s.active];
    AnswerAppliesOnce(s, o);
    AnswerSettles(b, o);
    FrontIsUnanswered(b);
    CallbackInOrder(b, b.queue[0].resolveId.value);
    hide Inv;
  }

  /**
   Any answer takes its prompt down and puts up what the active queue then begins with, so the next
   request is shown at once, and the one just answered never again.
  */
  lemma AnswerShowsNext(s: State, o: Outcome)
    requires Inv(s)
    ensures var r := Step(s, Respond(o));
            && (AnswerLands(s) ==>
                  s.active in r.backends && r.backends[s.active].queue == s.backends[s.active].queue[1..])
            && (!AnswerLands(s) ==> r.backends == s.backends)
            && (r.prompt.Some? <==> s.active in r.backends && r.backends[s.active].queue != [])
            && (r.prompt.Some? ==> r.prompt == Some(Shown(r.backends[s.active].queue[0], s.active)))
  {
    var u := if AnswerLands(s) then Clear(Applied(s, o)) else Clear(s);
    if AnswerLands(s) {
      AnswerSettles(s.backends[s.active], o);
    }
    hide Inv, Remembered, Resolve, Answered, Applies;
    SyncFromClear(u);
  }

  lemma SyncFromClear(s: State)
    requires s.prompt == None && s.promptId == None
    ensures var r := Sync(s);
            && r.backends == s.backends
            && (r.prompt.Some? <==> s.active in s.backends && s.backends[s.active].queue != [])
            && (r.prompt.Some? ==> r.prompt == Some(Shown(s.backends[s.active].queue[0], s.active)))
  {
  }

  /** A request that arrives waits behind those already queued; only in an empty queue is it shown at once. */
  lemma ArrivalWaitsItsTurn(s: State, e: Event)
    requires Inv(s) && s.active in s.backends
    requires match e
             case Push(en, id) => en == s.active && id in s.backends[en].arriving
             case PushUntracked(en, _, _) => en == s.active
             case _ => false
    ensures var up, b := Sync(s), s.backends[s.active];
            var r := Sync(Step(up, e));
            if b.queue != [] then r.prompt == up.prompt && r.promptId == up.promptId
            else r.prompt == Some(Shown(if e.Push? then b.minted[e.id] else Pending(e.origin, e.capabilities, None),
                                        s.active))
  {
    hide Responded, ShutAll, RegisterAt, WithdrawAt, UnqueueAt;
    var b := s.backends[s.active];
    SyncShowsFront(s);
    var q := if e.Push? then PushAt(b, e.id).queue
             else b.queue + [Pending(e.origin, e.capabilities, None)];
    assert b.queue != [] ==> q[0] == b.queue[0];
    hide BackendInv, OneCounter;
  }

  /** A withdrawn request leaves the prompt if it is up, and leaves any other prompt alone. */
  lemma WithdrawalClearsItsPrompt(s: State, id: ResolveId)
    requires Inv(s) && s.active in s.backends && s.backends[s.active].queue != []
    ensures var up, front := Sync(s), s.backends[s.active].queue[0];
            var r := Sync(Step(up, Unqueue(s.active, id)));
            if front.resolveId == Some(id) then r.prompt.Some? ==> r.prompt.value.pending.resolveId != Some(id)
            else r.prompt == up.prompt && r.promptId == up.promptId
  {
    hide Inv, WithoutId, Responded, ShutAll, RegisterAt, PushAt, WithdrawAt;
    var q, up := s.backends[s.active].queue, Sync(s);
    SyncShowsFront(s);
    WithoutIdFront(q, id);
    var u := Step(up, Unqueue(s.active, id));
    assert u == up.(backends := s.backends[s.active := UnqueueAt(s.backends[s.active], id)]);
    hide Step;
  }

  lemma {:induction false} WithoutIdFront(q: seq<Pending>, id: ResolveId)
    requires q != []
    ensures var r := WithoutId(q, id);
            && (q[0].resolveId != Some(id) ==> r != [] && r[0] == q[0])
            && (r != [] ==> r[0].resolveId != Some(id))
  {
    var before := q[..|q| - 1];
    if before != [] {
      WithoutIdFront(before, id);
    }
    var r := WithoutId(q, id);
    if r != [] { assert r[0] in r; }
  }

  lemma RememberedIs(store: map<(string, Capability), Decision>, p: Pending, o: Outcome, origin: string, c: Capability)
    ensures var r := Remembered(store, p, o);
            var asked := (o == Allow(true) || o == Deny(true)) && origin == p.origin && c in p.capabilities;
            if asked then (origin, c) in r && r[(origin, c)] == (if o.Allow? then Allowed else Denied)
            else ((origin, c) in r <==> (origin, c) in store) && ((origin, c) in r ==> r[(origin, c)] == store[(origin, c)])
  {
    StoreAllIs(store, p.origin, p.capabilities, Allowed, origin, c);
    StoreAllIs(store, p.origin, p.capabilities, Denied, origin, c);
  }

  /**
   Whatever engine is active by then, an answer that lands is for the very request the user read: no
   other engine's can carry its id, and an untracked one has to match word for word.
  */
  lemma AnswerIsForWhatWasRead(s: State, o: Outcome)
    requires Inv(s) && AnswerLands(s)
    ensures var a, shown := Responded(s, o).answers[|s.answers|], s.prompt.value;
            && a.read == shown.pending && a.applied == a.read
            && (a.read.resolveId.Some? ==> shown.engine == s.active)
  {
    AnswerAppliesOnce(s, o);
    var b := s.backends[s.active];
    assert b.queue[0] in b.queue && BackendInv(b);
    hide Remembered, Sync, Resolve, Responded, CallbacksInv, Once, Subsequence;
  }

  // ---- whole runs -------------------------------------------------------------------------------

  predicate Faithful(answers: seq<Answer>) {
    forall a :: a in answers ==> a.read == a.applied
  }

  function Replay(store: map<(string, Capability), Decision>, answers: seq<Answer>): map<(string, Capability), Decision> {
    if answers == [] then store
    else
      var last := answers[|answers| - 1];
      Remembered(Replay(store, answers[..|answers| - 1]), last.read, last.outcome)
  }

  lemma ReplaceBackend(s: State, en: EngineId, b: Backend, nextId: ResolveId)
    requires Inv(s) && en in s.backends && BackendInv(b)
    requires forall q :: AsMinted(s.backends[en].minted, q) ==> AsMinted(b.minted, q)
    requires OneCounter(s.backends[en := b], nextId)
    ensures Inv(s.(backends := s.backends[en := b], nextId := nextId))
  {
    hide BackendInv, OneCounter, AsMinted;
  }

  lemma SettleBackend(s: State, en: EngineId, b: Backend)
    requires Inv(s) && en in s.backends && BackendInv(b) && b.minted == s.backends[en].minted
    ensures Inv(s.(backends := s.backends[en := b]))
  {
    hide BackendInv, OneCounter, AsMinted;
    SameMintedKeepsCounter(s.backends, s.backends[en := b], s.nextId);
    ReplaceBackend(s, en, b, s.nextId);
  }

  lemma NextIdIsNobodys(bs: map<EngineId, Backend>, nextId: ResolveId, en: EngineId, p: Pending)
    requires OneCounter(bs, nextId) && en in bs && p.resolveId == Some(nextId)
    ensures nextId !in bs[en].minted && OneCounter(bs[en := RegisterAt(bs[en], p)], nextId + 1)
  {
    var cs := bs[en := RegisterAt(bs[en], p)];
    assert forall e, id :: e in bs && id in cs[e].minted ==> id in bs[e].minted || (e == en && id == nextId);
  }

  /** A registration takes the next id, so it is nobody's yet. */
  lemma RegisterKeeps(s: State, en: EngineId, origin: string, caps: seq<Capability>)
    requires Inv(s) && en in s.backends
    ensures var r := Step(s, Register(en, origin, caps));
            Inv(r) && r == s.(backends := r.backends, nextId := r.nextId)
  {
    hide BackendInv, OneCounter, RegisterAt, AsMinted, Sync, Responded, ShutAll;
    var b, p := s.backends[en], Pending(origin, caps, Some(s.nextId));
    NextIdIsNobodys(s.backends, s.nextId, en, p);
    RegisterSettles(b, p);
    ReplaceBackend(s, en, RegisterAt(b, p), s.nextId + 1);
    assert Step(s, Register(en, origin, caps))
           == s.(backends := s.backends[en := RegisterAt(b, p)], nextId := s.nextId + 1);
    hide Inv, Step;
  }

  lemma BackendEventKeeps(s: State, e: Event)
    requires Inv(s) && (e.Push? || e.PushUntracked? || e.Withdraw? || e.Unqueue?)
    ensures var r := Step(s, e); Inv(r) && r == s.(backends := r.backends)
  {
    if e.engine in s.backends {
      var b := s.backends[e.engine];
      hide BackendInv, UiInv, OneCounter, Sync, Responded, ShutAll, PushAt, PushUntrackedAt, WithdrawAt,
        UnqueueAt;
      assert BackendInv(b);
      hide Inv;
      match e
      case Push(en, id) => PushSettles(b, id); SettleBackend(s, en, PushAt(b, id));
      case PushUntracked(en, origin, caps) =>
        PushUntrackedSettles(b, Pending(origin, caps, None));
        SettleBackend(s, en, PushUntrackedAt(b, Pending(origin, caps, None)));
      case Withdraw(en, id) => WithdrawSettles(b, id); SettleBackend(s, en, WithdrawAt(b, id));
      case Unqueue(en, id) => UnqueueSettles(b, id); SettleBackend(s, en, UnqueueAt(b, id));
    }
  }

  /** What an answer does to the record: nothing, or one entry for what was read, remembered as asked. */
  lemma RespondRecords(s: State, o: Outcome)
    requires Inv(s)
    ensures var r := Responded(s, o);
            && Inv(r)
            && (AnswerLands(s) ==> r.answers == s.answers + [Answer(s.prompt.value.pending, s.prompt.value.pending, o)]
                                   && r.store == Remembered(s.store, s.prompt.value.pending, o))
            && (!AnswerLands(s) ==> r.answers == s.answers && r.store == s.store)
  {
    hide Responded, Remembered, BackendInv, OneCounter, Resolve;
    if AnswerLands(s) {
      AnswerAppliesOnce(s, o);
      AnswerIsForWhatWasRead(s, o);
    } else {
      StaleAnswerIsDiscarded(s, o);
    }
  }

  lemma SameMintedKeepsUi(s: State, r: State)
    requires UiInv(s) && r.prompt == s.prompt && r.promptId == s.promptId && r.backends.Keys == s.backends.Keys
    requires forall e :: e in s.backends ==> r.backends[e].minted == s.backends[e].minted
    ensures UiInv(r)
  {
  }

  lemma ShutAllSettles(bs: map<EngineId, Backend>)
    requires forall e :: e in bs ==> BackendInv(bs[e])
    ensures ShutAll(bs).Keys == bs.Keys
    ensures forall e :: e in bs ==> BackendInv(ShutAll(bs)[e]) && ShutAll(bs)[e].minted == bs[e].minted
  {
    forall e | e in bs ensures BackendInv(ShutAll(bs)[e]) && ShutAll(bs)[e].minted == bs[e].minted {
      ShutdownSettlesAll(bs[e]);
    }
  }

  lemma ShutdownKeeps(s: State)
    requires Inv(s)
    ensures Inv(Step(s, Shutdown))
  {
    hide BackendInv, ShutAll, OneCounter, UiInv;
    ShutAllSettles(s.backends);
    var r := Step(s, Shutdown);
    SameMintedKeepsUi(s, r);
    SameMintedKeepsCounter(s.backends, r.backends, s.nextId);
  }

  lemma SwitchKeeps(s: State, en: EngineId)
    requires Inv(s)
    ensures Inv(s.(active := en))
  {
    hide BackendInv, OneCounter;
  }

  lemma StepKeepsInv(s: State, e: Event)
    requires Inv(s)
    ensures Inv(Step(s, e))
  {
    hide Inv, Responded, Sync, Remembered, ShutAll, RegisterAt, PushAt, PushUntrackedAt, UnqueueAt, WithdrawAt;
    match e
    case Register(en, origin, caps) => if en in s.backends { RegisterKeeps(s, en, origin, caps); }
    case Push(_, _) => BackendEventKeeps(s, e);
    case PushUntracked(_, _, _) => BackendEventKeeps(s, e);
    case Withdraw(_, _) => BackendEventKeeps(s, e);
    case Unqueue(_, _) => BackendEventKeeps(s, e);
    case SwitchEngine(en) => SwitchKeeps(s, en);
    case SyncPrompt => SyncShowsFront(s);
    case Respond(o) => RespondRecords(s, o);
    case Shutdown => ShutdownKeeps(s);
  }

  /** After the shutdown no engine holds a callback or a request, and none is left waiting. */
  lemma ShutdownLeavesNothing(s: State)
    requires Inv(s)
    ensures var r := Step(s, Shutdown);
            && r.backends.Keys == s.backends.Keys && r.store == s.store && r.answers == s.answers
            && forall e :: e in s.backends ==>
                 var b, d := s.backends[e], r.backends[e];
                 && d.registry == {} && d.queue == [] && d.minted == b.minted && d.retired == b.retired
                 && forall id :: id in b.minted ==> d.fired[id] == if id in b.retired then 0 else 1
  {
    var r := Step(s, Shutdown);
    hide BackendInv, ShutBackend, OneCounter, UiInv;
    forall e | e in s.backends
      ensures var b, d := s.backends[e], r.backends[e];
              && d.registry == {} && d.queue == [] && d.minted == b.minted && d.retired == b.retired
              && forall id :: id in b.minted ==> d.fired[id] == if id in b.retired then 0 else 1
    {
      ShutdownSettlesAll(s.backends[e]);
    }
  }

  /** A withdrawal takes the callback back, for good: nothing fires it afterwards, whatever happens. */
  lemma WithdrawnNeverFires(s: State, en: EngineId, id: ResolveId, events: seq<Event>)
    requires Inv(s) && en in s.backends && id in s.backends[en].registry
    ensures var a := Step(s, Withdraw(en, id));
            var r := Run(a, events);
            && id in a.backends[en].retired && id !in a.backends[en].registry
            && en in r.backends && id in r.backends[en].retired && r.backends[en].fired[id] == 0
  {
    var e := Withdraw(en, id);
    CallbackInOrder(s.backends[en], id) by { assert BackendInv(s.backends[en]); }
    BackendEventKeeps(s, e);
    RetiredStays(Step(s, e), en, id, events);
  }

  lemma RetiredStep(s: State, en: EngineId, id: ResolveId, e: Event)
    requires en in s.backends && id in s.backends[en].retired
    ensures en in Step(s, e).backends && id in Step(s, e).backends[en].retired
  {
    match e
    case Shutdown =>
      NothingLeftToResolve(Shut(s.backends[en]), s.backends[en].queue);
    case Respond(o) =>
    case _ =>
    hide Remembered, WithoutId, ResolveEach, Applies;
  }

  lemma {:induction false} RetiredStays(s: State, en: EngineId, id: ResolveId, events: seq<Event>)
    requires Inv(s) && en in s.backends && id in s.backends[en].retired
    ensures var r := Run(s, events);
            en in r.backends && id in r.backends[en].retired && r.backends[en].fired[id] == 0
    decreases |events|
  {
    if events == [] {
      CallbackInOrder(s.backends[en], id) by { assert BackendInv(s.backends[en]); }
    } else {
      RetiredStep(s, en, id, events[0]);
      StepKeepsInv(s, events[0]);
      hide Inv, Step;
      RetiredStays(Step(s, events[0]), en, id, events[1..]);
    }
  }

  /** Another engine's requests are shown once it is the active one. */
  lemma SwitchShowsItsQueue(s: State, en: EngineId)
    requires Inv(s)
    ensures var r := Sync(Step(s, SwitchEngine(en)));
            && (r.prompt.Some? <==> en in s.backends && s.backends[en].queue != [])
            && (r.prompt.Some? ==> r.prompt.value.pending == s.backends[en].queue[0])
  {
    SwitchKeeps(s, en);
    var u := Step(s, SwitchEngine(en));
    SyncShowsFront(u);
    if Sync(u).prompt.Some? { ShownIsFront(Sync(u)); }
    hide Inv, Sync;
  }

  lemma ShownIsFront(s: State)
    requires Inv(s) && AnswerLands(s) && s.prompt.Some?
    ensures s.prompt.value.pending == s.backends[s.active].queue[0]
  {
    var b := s.backends[s.active];
    assert b.queue[0] in b.queue && BackendInv(b);
    hide CallbacksInv, Once, Subsequence;
  }

  /** The record is faithful, and the store is what it says. */
  ghost predicate Recorded(s: State, initial: map<(string, Capability), Decision>) {
    Inv(s) && Faithful(s.answers) && s.store == Replay(initial, s.answers)
  }

  lemma StepRecords(s: State, e: Event, initial: map<(string, Capability), Decision>)
    requires Recorded(s, initial)
    ensures Recorded(Step(s, e), initial)
  {
    hide Inv, Responded, Sync, Remembered, Replay, Faithful, ShutAll, RegisterAt, PushAt, PushUntrackedAt,
      UnqueueAt, WithdrawAt;
    match e
    case Register(en, origin, caps) => if en in s.backends { RegisterKeeps(s, en, origin, caps); }
    case Push(_, _) => BackendEventKeeps(s, e);
    case PushUntracked(_, _, _) => BackendEventKeeps(s, e);
    case Withdraw(_, _) => BackendEventKeeps(s, e);
    case Unqueue(_, _) => BackendEventKeeps(s, e);
    case SwitchEngine(en) => SwitchKeeps(s, en);
    case SyncPrompt => SyncShowsFront(s);
    case Respond(o) => RespondStepRecords(s, o, initial);
    case Shutdown => ShutdownKeeps(s);
  }

  lemma ReplaySnoc(initial: map<(string, Capability), Decision>, answers: seq<Answer>, a: Answer)
    requires Faithful(answers) && a.read == a.applied
    ensures Replay(initial, answers + [a]) == Remembered(Replay(initial, answers), a.read, a.outcome)
    ensures Faithful(answers + [a])
  {
    assert (answers + [a])[..|answers|] == answers;
  }

  lemma RespondStepRecords(s: State, o: Outcome, initial: map<(string, Capability), Decision>)
    requires Recorded(s, initial)
    ensures Recorded(Responded(s, o), initial)
  {
    RespondRecords(s, o);
    if AnswerLands(s) {
      assert s.prompt.Some?;
      var a := Answer(s.prompt.value.pending, s.prompt.value.pending, o);
      hide Inv, Responded, Remembered, AnswerLands, Faithful, Replay;
      ReplaySnoc(initial, s.answers, a);
    } else {
      hide Inv, Responded, Remembered, AnswerLands, Faithful, Replay;
    }
  }

  lemma {:induction false} RunRecords(s: State, events: seq<Event>, initial: map<(string, Capability), Decision>)
    requires Recorded(s, initial)
    ensures Recorded(Run(s, events), initial)
    decreases |events|
  {
    if events != [] {
      StepRecords(s, events[0], initial);
      hide Recorded, Step;
      RunRecords(Step(s, events[0]), events[1..], initial);
    }
  }

  function NewBackend(): Backend {
    Backend([], {}, multiset{}, map[], {}, {}, map[], {}, {}, multiset{}, map[], [])
  }

  /** Engines that have asked nothing yet, with nothing on screen. */
  predicate Initial(s: State) {
    && s.prompt == None && s.promptId == None && s.answers == []
    && (forall e :: e in s.backends ==> s.backends[e] == NewBackend())
  }

  /**
   What has become of a tracked request: answered at most once, and then its callback is not held any
   more and has got that answer, unless it was withdrawn or deferred before; fired at most once, by an
   answer or the shutdown, and never after a withdrawal; and lost nowhere on its way.
  */
  predicate SettledRight(b: Backend, id: ResolveId)
    requires id in b.minted
  {
    && b.answered[id] <= 1 && b.fired[id] <= 1
    && (id in b.retired ==> b.fired[id] == 0)
    && (id in b.answered ==>
          && id in b.verdicts && id !in b.registry
          && (id !in b.retired && id !in b.deferred ==>
                id in b.delivered && b.delivered[id] == b.verdicts[id] && b.fired[id] == 1))
    && (id in b.fired ==> id in b.deferred || id in b.answered)
    && (id in b.arriving || id in b.dropped || id in b.answered || b.minted[id] in b.queue)
  }

  lemma RequestsSettleRight(b: Backend, id: ResolveId)
    requires BackendInv(b) && id in b.minted
    ensures SettledRight(b, id)
  {
    CallbackInOrder(b, id);
    hide CallbacksInv, Subsequence, AllMinted;
    assert Places(b.queue, b.minted[id], id in b.arriving, b.answered[id]) <= 1;
  }

  /**
   From the start, over any interleaving of arrivals, withdrawals, engine switches, syncs, answers and
   shutdown: every answer that was applied was applied to the request the user had read; the store is
   exactly those answers replayed; no id is shared; and every request has settled right.
  */
  lemma EveryRunRecords(s: State, events: seq<Event>)
    requires Initial(s)
    ensures var r := Run(s, events);
            && Faithful(r.answers) && r.store == Replay(s.store, r.answers)
            && OneCounter(r.backends, r.nextId)
            && forall e, id :: e in r.backends && id in r.backends[e].minted ==> SettledRight(r.backends[e], id)
  {
    assert Recorded(s, s.store) by {
      assert BackendInv(NewBackend());
      hide BackendInv;
    }
    RunRecords(s, events, s.store);
    var r := Run(s, events);
    hide Run, SettledRight, Faithful, Replay;
    forall e, id | e in r.backends && id in r.backends[e].minted ensures SettledRight(r.backends[e], id) {
      RequestsSettleRight(r.backends[e], id);
    }
  }

  // ---- in place ---------------------------------------------------------------------------------

  class PromptState {
    var backends: map<EngineId, Backend>
    var nextId: ResolveId
    var active: EngineId
    var prompt: Option<Shown>
    var promptId: Option<Identity>
    var store: map<(string, Capability), Decision>
    ghost var answers: seq<Answer>

    ghost function Model(): State
      reads this
    {
      State(backends, nextId, active, prompt, promptId, store, answers)
    }

    constructor (backends: map<EngineId, Backend>, active: EngineId, store: map<(string, Capability), Decision>)
      ensures Model() == State(backends, 1, active, None, None, store, [])
    {
      nextId := 1;
      this.backends, this.active, this.store := backends, active, store;
      prompt, promptId, answers := None, None, [];
    }

    method ClearPermissionsPrompt() returns (had: bool)
      modifies this`prompt, this`promptId
      ensures Model() == Clear(old(Model())) && had == old(prompt).Some?
    {
      had := prompt.Some?;
      prompt := None;
      promptId := None;
    }

    /** `changed` asks for a redraw; without it nothing on screen has moved. */
    method SyncPermissionsPrompt() returns (changed: bool)
      modifies this`prompt, this`promptId
      ensures Model() == Sync(old(Model()))
      ensures old(prompt).None? ==> (changed <==> prompt.Some?)
      ensures old(prompt).Some? ==>
                (changed <==> !(active in backends && Applies(Front(backends[active].queue), old(promptId))))
      ensures !changed ==> prompt == old(prompt)
    {
      if active !in backends {
        changed := ClearPermissionsPrompt();
        return;
      }
      var front := Front(backends[active].queue);
      changed := false;
      if prompt.Some? {
        if front.Some? && promptId.Some? && Matches(promptId.value, front.value) {
          return false;
        }
        changed := ClearPermissionsPrompt();
      }
      if front.None? {
        return;
      }
      promptId := Some(IdentityOf(front.value));
      prompt := Some(Shown(front.value, active));
      changed := true;
    }

    method StoreDecisions(origin: string, caps: seq<Capability>, d: Decision)
      modifies this`store
      ensures store == StoreAll(old(store), origin, caps, d)
    {
      var i := 0;
      while i < |caps|
        invariant i <= |caps| && store == StoreAll(old(store), origin, caps[..i], d)
      {
        assert caps[..i + 1][..i] == caps[..i];
        store := store[(origin, caps[i]) := d];
        i := i + 1;
      }
      assert caps[..|caps|] == caps;
    }

    method ApplyAnswer(o: Outcome)
      requires prompt.Some? && AnswerLands(Model())
      modifies this`backends, this`store, this`answers
      ensures Model() == Applied(old(Model()), o)
    {
      var b := backends[active];
      var pending := b.queue[0];
      answers := answers + [Answer(prompt.value.pending, pending, o)];
      if o == Allow(true) {
        StoreDecisions(pending.origin, pending.capabilities, Allowed);
      } else if o == Deny(true) {
        StoreDecisions(pending.origin, pending.capabilities, Denied);
      }
      backends := backends[active := Resolve(Answered(b, o), pending.resolveId, o)];
    }

    method ResolvePermission(o: Outcome)
      requires prompt.Some? || promptId.None?
      modifies this
      ensures Model() == Responded(old(Model()), o)
    {
      if active !in backends {
        var _ := ClearPermissionsPrompt();
        return;
      }
      if Applies(Front(backends[active].queue), promptId) {
        ApplyAnswer(o);
      }
      var _ := ClearPermissionsPrompt();
      var _ := SyncPermissionsPrompt();
    }

    /** One engine's turn in the shutdown sequence: browsers closed, then the queue drained and every entry deferred. */
    method DrainEngine(e: EngineId)
      requires e in backends
      modifies this`backends
      ensures backends == old(backends)[e := ShutBackend(old(backends)[e])]
    {
      var b := backends[e];
      var drained := b.queue;
      b := DeferAll(b).(queue := [], dropped := b.dropped + QueuedIds(drained));
      ghost var start := b;
      var i := 0;
      while i < |drained|
        invariant i <= |drained|
        invariant ResolveEach(b, drained[i..]) == ResolveEach(start, drained)
      {
        assert drained[i..][1..] == drained[i + 1..];
        b := Resolve(b, drained[i].resolveId, Defer);
        i := i + 1;
      }
      backends := backends[e := b];
    }
  }
}
