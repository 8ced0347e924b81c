/**
 Which page field has the keyboard: focus events from every browser, the blur that waits for a
 sibling's focus before leaving Insert, and the ways out of Insert.

 Times are nanoseconds; a blur is stamped when it is drained, not when the page raised it.
*/
module EditFocus {
  import opened Options

  const BLUR_TRANSFER_WINDOW: nat := 250_000_000

  type Field = string
  type Browser = int

  datatype Mode = Normal | Insert | Visual | Command | Hint

  datatype EditEvent = Focus(field: Field) | Blur(field: Field) | Mutate(field: Field) | Selection(value: string)

  datatype Tagged = Tagged(browser: Browser, event: EditEvent)

  /**
   `active` is the browser of the engine's active tab, which every drain asks for; `attached` and
   `clipboard` are the calls made on the engine, in order.
  */
  datatype State = State(
    active: Option<Browser>, focus: Option<Field>, mode: Mode, pendingBlur: Option<nat>,
    lastField: Option<Field>, attached: seq<Field>, clipboard: seq<string>)

  datatype Event =
    | Drain(now: nat, queue: seq<Tagged>)
    | SwitchTab(active: Option<Browser>)
    | Expire(now: nat)
    | Esc(back: Mode)
    | ExitInsert
    | SetMode(mode: Mode)

  // ---- steps ------------------------------------------------------------------------------------

  function Handle(s: State, e: EditEvent, now: nat): State {
    match e
    case Focus(f) =>
      if s.focus == Some(f) then s
      else s.(focus := Some(f), mode := Insert, pendingBlur := None, lastField := Some(f),
              attached := s.attached + [f])
    case Blur(f) => if s.focus == Some(f) then s.(focus := None, pendingBlur := Some(now)) else s
    case Mutate(_) => s
    case Selection(v) => if v == "" then s else s.(clipboard := s.clipboard + [v])
  }

  /** `drain_edit_focus_events`: only the active tab's browser is listened to. */
  function Drained(s: State, q: seq<Tagged>, now: nat): (r: State)
    ensures r.active == s.active
  {
    if q == [] then s
    else
      var before := Drained(s, q[..|q| - 1], now);
      var last := q[|q| - 1];
      if s.active == Some(last.browser) then Handle(before, last.event, now) else before
  }

  function Expired(s: State, now: nat): State {
    if s.pendingBlur.None? || Max(now - s.pendingBlur.value, 0) < BLUR_TRANSFER_WINDOW then s
    else s.(pendingBlur := None, mode := if s.mode.Insert? then Normal else s.mode)
  }

  /**
   Escape leaves the focused field; with none focused it is the only way out of Insert, to the mode
   that was entered from.
  */
  function Escaped(s: State, back: Mode): State {
    if s.focus.Some? then s.(focus := None, mode := Normal)
    else if s.mode.Insert? then s.(mode := back)
    else s
  }

  function Step(s: State, e: Event): State {
    match e
    case Drain(now, q) => Drained(s, q, now)
    case SwitchTab(active) => s.(active := active)
    case Expire(now) => Expired(s, now)
    case Esc(back) => Escaped(s, back)
    case ExitInsert => s.(focus := None, mode := Normal)
    case SetMode(m) => s.(mode := m)
  }

  function Run(s: State, events: seq<Event>): State
    decreases |events|
  {
    if events == [] then s else Run(Step(s, events[0]), events[1..])
  }

  // ---- only the active browser counts -----------------------------------------------------------

  function OnlyFrom(q: seq<Tagged>, active: Option<Browser>): seq<Tagged> {
    if q == [] then []
    else
      var before := OnlyFrom(q[..|q| - 1], active);
      var last := q[|q| - 1];
      if active == Some(last.browser) then before + [last] else before
  }

  /** Draining any queue does what draining the active browser's own events, in their order, does. */
  lemma {:induction false} DrainIgnoresOthers(s: State, q: seq<Tagged>, now: nat)
    ensures Drained(s, q, now) == Drained(s, OnlyFrom(q, s.active), now)
    ensures forall t :: t in OnlyFrom(q, s.active) ==> s.active == Some(t.browser)
  {
    if q != [] {
      var n := |q| - 1;
      DrainIgnoresOthers(s, q[..n], now);
      var before := OnlyFrom(q[..n], s.active);
      if s.active == Some(q[n].browser) {
        assert (before + [q[n]])[..|before|] == before;
      }
    }
  }

  // ---- what a drain leaves focused --------------------------------------------------------------

  /** `i` is the last event that gave a field the focus. */
  predicate LastFocus(q: seq<Tagged>, i: nat) {
    i < |q| && q[i].event.Focus? && forall j :: i < j < |q| ==> !q[j].event.Focus?
  }

  predicate BlurredAfter(q: seq<Tagged>, from: nat, f: Field) {
    exists j :: from <= j < |q| && q[j].event == Blur(f)
  }

  predicate AnyFocus(q: seq<Tagged>) {
    exists i :: 0 <= i < |q| && q[i].event.Focus?
  }

  predicate AllFrom(q: seq<Tagged>, active: Option<Browser>) {
    forall t :: t in q ==> active == Some(t.browser)
  }

  lemma BlurredSnoc(q: seq<Tagged>, t: Tagged, from: nat, f: Field)
    requires from <= |q|
    ensures BlurredAfter(q + [t], from, f) <==> BlurredAfter(q, from, f) || t.event == Blur(f)
  {
    var r := q + [t];
    assert r[|q|] == t;
    if BlurredAfter(q, from, f) {
      var j :| from <= j < |q| && q[j].event == Blur(f);
      assert r[j].event == Blur(f);
    }
  }

  /**
   Of a queue of the active browser's events only the last focus and the blurs behind it decide what
   has the focus; with no focus in it, whether what was focused blurred at all.
  */
  lemma {:induction false} FocusAfterDrain(s: State, q: seq<Tagged>, now: nat)
    requires AllFrom(q, s.active)
    ensures var r := Drained(s, q, now);
            && (forall i: nat :: LastFocus(q, i) ==>
                  r.focus == if BlurredAfter(q, i, q[i].event.field) then None else Some(q[i].event.field))
            && (AnyFocus(q) ==> exists i: nat :: LastFocus(q, i))
            && (!AnyFocus(q) ==>
                  r.focus == if s.focus.Some? && BlurredAfter(q, 0, s.focus.value) then None else s.focus)
  {
    if AnyFocus(q) { LastFocusExists(q); }
    if q != [] {
      var n := |q| - 1;
      var g, t := q[..n], q[n];
      assert q == g + [t] && t in q;
      FocusAfterDrain(s, g, now);
      assert Drained(s, q, now) == Handle(Drained(s, g, now), t.event, now);
      forall i: nat | LastFocus(q, i)
        ensures Drained(s, q, now).focus
                == if BlurredAfter(q, i, q[i].event.field) then None else Some(q[i].event.field) {
        if i < n {
          assert LastFocus(g, i);
          BlurredSnoc(g, t, i, q[i].event.field);
        }
      }
      if !AnyFocus(q) {
        assert !AnyFocus(g) by {
          assert forall i :: 0 <= i < n ==> g[i] == q[i];
        }
        if s.focus.Some? { BlurredSnoc(g, t, 0, s.focus.value); }
      }
    }
  }

  lemma DrainOne(s: State, b: Browser, e: EditEvent, now: nat)
    requires s.active == Some(b)
    ensures Drained(s, [Tagged(b, e)], now) == Handle(s, e, now)
  {
    assert [Tagged(b, e)][..0] == [];
  }

  lemma {:induction false} LastFocusExists(q: seq<Tagged>)
    requires AnyFocus(q)
    ensures exists i: nat :: LastFocus(q, i)
  {
    var n := |q| - 1;
    if q[n].event.Focus? {
      assert LastFocus(q, n);
    } else {
      LastFocusExists(q[..n]);
      var i: nat :| LastFocus(q[..n], i);
      assert LastFocus(q, i);
    }
  }

  /** Whatever a drain puts the focus on, it enters Insert for, attaches to, remembers, and calls off a waiting blur. */
  lemma {:induction false} NewFocusEntersInsert(s: State, q: seq<Tagged>, now: nat)
    ensures var r := Drained(s, q, now);
            && s.attached <= r.attached
            && (r.focus.Some? && (r.focus != s.focus || r.attached != s.attached) ==>
                  && r.mode.Insert? && r.pendingBlur.None? && r.lastField == r.focus
                  && r.attached != [] && r.attached[|r.attached| - 1] == r.focus.value)
            && (r.attached == s.attached ==> r.mode == s.mode && r.lastField == s.lastField)
  {
    if q != [] {
      NewFocusEntersInsert(s, q[..|q| - 1], now);
    }
  }

  /** The selections a queue carries, empty ones left out. */
  function Selections(q: seq<Tagged>): seq<string> {
    if q == [] then []
    else
      var e := q[|q| - 1].event;
      Selections(q[..|q| - 1]) + (if e.Selection? && e.value != "" then [e.value] else [])
  }

  /** A drain copies exactly the active browser's selections, in order. */
  lemma {:induction false} DrainCopiesSelections(s: State, q: seq<Tagged>, now: nat)
    ensures Drained(s, q, now).clipboard == s.clipboard + Selections(OnlyFrom(q, s.active))
  {
    if q != [] {
      var n := |q| - 1;
      var before := OnlyFrom(q[..n], s.active);
      DrainCopiesSelections(s, q[..n], now);
      if s.active == Some(q[n].browser) {
        assert (before + [q[n]])[..|before|] == before;
      }
    }
  }

  // ---- the deferred blur ------------------------------------------------------------------------

  /** A blur only ever waits while nothing is focused. */
  predicate Inv(s: State) {
    s.pendingBlur.Some? ==> s.focus.None?
  }

  lemma {:induction false} DrainKeeps(s: State, q: seq<Tagged>, now: nat)
    requires Inv(s)
    ensures Inv(Drained(s, q, now))
  {
    if q != [] {
      DrainKeeps(s, q[..|q| - 1], now);
    }
  }

  lemma {:induction false} RunKeeps(s: State, events: seq<Event>)
    requires Inv(s)
    ensures Inv(Run(s, events))
    decreases |events|
  {
    if events != [] {
      if events[0].Drain? { DrainKeeps(s, events[0].queue, events[0].now); }
      RunKeeps(Step(s, events[0]), events[1..]);
    }
  }

  /**
   So in every reachable state the expiry of a blur leaves Insert exactly when the window is over,
   and never takes it from a focused field.
  */
  lemma ExpiryLeavesInsertIff(s: State, events: seq<Event>, now: nat)
    requires Inv(s)
    ensures var r := Run(s, events);
            var e := Step(r, Expire(now));
            && (r.focus.Some? ==> e == r)
            && (e.mode != r.mode <==>
                  r.mode.Insert? && r.pendingBlur.Some? && now >= r.pendingBlur.value + BLUR_TRANSFER_WINDOW)
            && e.focus == r.focus
  {
    RunKeeps(s, events);
  }

  function ExpireAll(times: seq<nat>): seq<Event> {
    seq(|times|, i requires 0 <= i < |times| => Expire(times[i]))
  }

  lemma {:induction false} ExpiriesOnly(s: State, times: seq<nat>)
    ensures var r := Run(s, ExpireAll(times));
            var over := s.pendingBlur.Some?
                        && exists i :: 0 <= i < |times| && times[i] >= s.pendingBlur.value + BLUR_TRANSFER_WINDOW;
            r == if over then s.(pendingBlur := None, mode := if s.mode.Insert? then Normal else s.mode) else s
    decreases |times|
  {
    if times != [] {
      assert ExpireAll(times)[1..] == ExpireAll(times[1..]);
      ExpiriesOnly(Expired(s, times[0]), times[1..]);
      assert forall i :: 1 <= i < |times| ==> times[i] == times[1..][i - 1];
    }
  }

  /**
   A transfer: the focused field blurs, ticks pass inside the window, and another field of the same
   page gets the focus. Insert is never left, not by any tick afterwards either.
  */
  lemma TransferStaysInInsert(s: State, b: Browser, f: Field, g: Field,
                              t0: nat, waits: seq<nat>, t1: nat, later: seq<nat>)
    requires s.active == Some(b) && s.focus == Some(f) && s.mode.Insert? && f != g
    requires forall i :: 0 <= i < |waits| ==> waits[i] < t0 + BLUR_TRANSFER_WINDOW
    ensures var blurred := Step(s, Drain(t0, [Tagged(b, Blur(f))]));
            var waited := Run(blurred, ExpireAll(waits));
            var moved := Step(waited, Drain(t1, [Tagged(b, Focus(g))]));
            && blurred.mode.Insert? && waited == blurred && moved.mode.Insert? && moved.focus == Some(g)
            && Run(moved, ExpireAll(later)) == moved
  {
    var blurred := Step(s, Drain(t0, [Tagged(b, Blur(f))]));
    DrainOne(s, b, Blur(f), t0);
    ExpiriesOnly(blurred, waits);
    var moved := Step(blurred, Drain(t1, [Tagged(b, Focus(g))]));
    DrainOne(blurred, b, Focus(g), t1);
    ExpiriesOnly(moved, later);
  }

  /** And a real exit: with no focus in between, the first tick at least 250 ms after the blur leaves Insert. */
  lemma BlurLeavesInsertIff(s: State, b: Browser, f: Field, t0: nat, times: seq<nat>)
    requires s.active == Some(b) && s.focus == Some(f) && s.mode.Insert?
    ensures var blurred := Step(s, Drain(t0, [Tagged(b, Blur(f))]));
            Run(blurred, ExpireAll(times)).mode == Normal
            <==> exists i :: 0 <= i < |times| && times[i] >= t0 + 250_000_000
  {
    var blurred := Step(s, Drain(t0, [Tagged(b, Blur(f))]));
    DrainOne(s, b, Blur(f), t0);
    ExpiriesOnly(blurred, times);
  }

  // ---- a field that nobody blurs ----------------------------------------------------------------

  /** Events that could end or move the focus on `f`. */
  predicate Touches(s: State, e: Event, f: Field) {
    match e
    case Drain(_, q) =>
      exists i :: 0 <= i < |q| && s.active == Some(q[i].browser)
                  && (q[i].event == Blur(f) || (q[i].event.Focus? && q[i].event.field != f))
    case SwitchTab(_) => false
    case Expire(_) => false
    case Esc(_) => true
    case ExitInsert => true
    case SetMode(_) => false
  }

  predicate Untouched(s: State, events: seq<Event>, f: Field)
    decreases |events|
  {
    events == [] || (!Touches(s, events[0], f) && Untouched(Step(s, events[0]), events[1..], f))
  }

  lemma {:induction false} UntouchedDrain(s: State, f: Field, q: seq<Tagged>, now: nat)
    requires s.focus == Some(f) && !Touches(s, Drain(now, q), f)
    ensures Drained(s, q, now).focus == Some(f)
  {
    if q != [] {
      var g := q[..|q| - 1];
      assert forall i :: 0 <= i < |g| ==> g[i] == q[i];
      UntouchedDrain(s, f, g, now);
    }
  }

  /**
   A field keeps the keyboard through any run, tab switches included, in which neither Escape, nor the
   exit action, nor an event of the browser active at the time touches it.
  */
  lemma {:induction false} UntouchedFocusStays(s: State, f: Field, events: seq<Event>)
    requires s.focus == Some(f) && Untouched(s, events, f)
    ensures Run(s, events).focus == Some(f)
    decreases |events|
  {
    if events != [] {
      var e := events[0];
      if e.Drain? { UntouchedDrain(s, f, e.queue, e.now); }
      UntouchedFocusStays(Step(s, e), f, events[1..]);
    }
  }

  lemma {:induction false} OthersAreDropped(s: State, owner: Browser, q: seq<Tagged>, now: nat)
    requires s.active != Some(owner) && AllFrom(q, Some(owner))
    ensures Drained(s, q, now) == s
    decreases |q|
  {
    if q != [] {
      var g, last := q[..|q| - 1], q[|q| - 1];
      assert last in q && forall t :: t in g ==> t in q;
      OthersAreDropped(s, owner, g, now);
    }
  }

  /**
   After a switch to a tab of another browser, nothing the old page raises is heard, its field's own
   blur included: the field keeps the focus, and every key goes on to the new tab as if its page had
   asked for it, until the new page, Escape or the exit action touches it.
  */
  lemma FocusOutlivesTabSwitch(s: State, f: Field, owner: Browser, to: Option<Browser>,
                               q: seq<Tagged>, now: nat, events: seq<Event>)
    requires s.focus == Some(f) && to != Some(owner) && AllFrom(q, Some(owner))
    ensures var a := Step(s, SwitchTab(to));
            var b := Step(a, Drain(now, q));
            && b == a && b.focus == Some(f) && b.mode == s.mode
            && (Untouched(b, events, f) ==> Run(b, events).focus == Some(f))
  {
    var a := Step(s, SwitchTab(to));
    OthersAreDropped(a, owner, q, now);
    if Untouched(a, events, f) {
      UntouchedFocusStays(a, f, events);
    }
  }

  /** The blur is heard exactly when its browser is still the active one at the drain. */
  lemma BlurIsHeardIff(s: State, f: Field, owner: Browser, to: Option<Browser>, now: nat)
    requires s.focus == Some(f)
    ensures var a := Step(s, SwitchTab(to));
            Step(a, Drain(now, [Tagged(owner, Blur(f))])).focus.None? <==> to == Some(owner)
  {
    var a := Step(s, SwitchTab(to));
    if to == Some(owner) {
      DrainOne(a, owner, Blur(f), now);
    } else {
      OthersAreDropped(a, owner, [Tagged(owner, Blur(f))], now);
    }
  }

  // ---- the ways out -----------------------------------------------------------------------------

  /**
   Escape always lets go of the field and of Insert: from a focused field it leaves for Normal, with
   none focused it leaves Insert for where Insert was entered from, and otherwise it changes nothing.
  */
  lemma EscapeLeaves(s: State, back: Mode)
    ensures var r := Step(s, Esc(back));
            && r.focus == None && r == s.(focus := None, mode := r.mode)
            && r.mode == (if s.focus.Some? then Normal else if s.mode == Insert then back else s.mode)
            && (back != Insert ==> r.mode != Insert)
  {
  }

  /** Until an event of the active browser gives a field the focus again, nothing is typed into the page. */
  lemma ExitLeaves(s: State)
    ensures var r := Step(s, ExitInsert);
            r.focus == None && r.mode == Normal && r == s.(focus := None, mode := Normal)
  {
  }

  /** Events that repeat what is already so, or say nothing: they neither attach again nor restart a waiting blur. */
  predicate Idle(s: State, e: EditEvent) {
    match e
    case Focus(f) => s.focus == Some(f)
    case Blur(f) => s.focus != Some(f)
    case Mutate(_) => true
    case Selection(v) => v == ""
  }

  lemma {:induction false} IdleEventsChangeNothing(s: State, q: seq<Tagged>, now: nat)
    requires forall i :: 0 <= i < |q| ==> s.active != Some(q[i].browser) || Idle(s, q[i].event)
    ensures Drained(s, q, now) == s
  {
    if q != [] {
      IdleEventsChangeNothing(s, q[..|q| - 1], now);
    }
  }

  // ---- in place ---------------------------------------------------------------------------------

  class EditPlumbing {
    var active: Option<Browser>
    var focus: Option<Field>
    var mode: Mode
    var pendingBlur: Option<nat>
    var lastField: Option<Field>
    var attached: seq<Field>
    var clipboard: seq<string>

    ghost function Model(): State
      reads this
    {
      State(active, focus, mode, pendingBlur, lastField, attached, clipboard)
    }

    ghost predicate Valid()
      reads this
    {
      Inv(Model())
    }

    constructor ()
      ensures Valid() && Model() == State(None, None, Normal, None, None, [], [])
    {
      active := None;
      focus, mode, pendingBlur, lastField, attached, clipboard := None, Normal, None, None, [], [];
    }

    /** The engine makes another tab active; nothing of the edit state is told. */
    method OnTabSwitch(to: Option<Browser>)
      requires Valid()
      modifies this`active
      ensures Model() == Step(old(Model()), SwitchTab(to)) && Valid()
    {
      active := to;
    }

    method HandleEvent(e: EditEvent, now: nat)
      modifies this
      ensures Model() == Handle(old(Model()), e, now)
    {
      match e
      case Focus(f) =>
        if focus != Some(f) {
          pendingBlur := None;
          attached := attached + [f];
          mode := Insert;
          lastField := Some(f);
          focus := Some(f);
        }
      case Blur(f) =>
        if focus == Some(f) {
          focus := None;
          pendingBlur := Some(now);
        }
      case Mutate(_) =>
      case Selection(v) =>
        if v != "" {
          clipboard := clipboard + [v];
        }
    }

    method DrainEditFocusEvents(q: seq<Tagged>, now: nat)
      requires Valid()
      modifies this
      ensures Model() == Drained(old(Model()), q, now) && Valid()
    {
      ghost var start := Model();
      var i := 0;
      while i < |q|
        invariant i <= |q| && Model() == Drained(start, q[..i], now)
      {
        assert q[..i + 1][..i] == q[..i];
        if active == Some(q[i].browser) {
          HandleEvent(q[i].event, now);
        }
        i := i + 1;
      }
      assert q[..|q|] == q;
      DrainKeeps(start, q, now);
    }

    method ExpirePendingBlur(now: nat)
      requires Valid()
      modifies this`pendingBlur, this`mode
      ensures Model() == Expired(old(Model()), now) && Valid()
    {
      if pendingBlur.None? { return; }
      if Max(now - pendingBlur.value, 0) < BLUR_TRANSFER_WINDOW { return; }
      pendingBlur := None;
      if mode.Insert? {
        mode := Normal;
      }
    }

    /** `consumed` is false when the key goes on to the keymap. */
    method HandleEsc(back: Mode) returns (consumed: bool)
      requires Valid()
      modifies this`focus, this`mode
      ensures Model() == Escaped(old(Model()), back) && Valid()
      ensures consumed <==> old(focus).Some? || old(mode).Insert?
    {
      if focus.None? {
        consumed := mode.Insert?;
        if consumed { mode := back; }
        return;
      }
      focus := None;
      mode := Normal;
      consumed := true;
    }

    method ExitInsertMode()
      requires Valid()
      modifies this`focus, this`mode
      ensures Model() == Step(old(Model()), ExitInsert) && Valid()
    {
      focus := None;
      mode := Normal;
    }
  }
}
