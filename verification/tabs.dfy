/**
 The tab list of one engine, and what the application does to it: closing with the pinned-tab
 confirmation, the tab context menu, middle click, dragging, pinning and reopening.

 Tabs are named by ids that are never reused, but the list, the active tab and the strip on screen
 are all addressed by slot, so most of what can go wrong is a slot that has gone stale.
*/
module Tabs {
  import opened Options

  const CLOSED_STACK_CAP: nat := 8

  type TabId = nat

  /** Only a real page is worth keeping on the undo stack. */
  datatype Url = Empty | AboutBlank | Page

  datatype Tab = Tab(id: TabId, pinned: bool, url: Url)

  datatype Closed = Closed(tab: Tab, index: nat)

  /** `shown`: the tabs whose browser runs in the foreground. */
  datatype Strip = Strip(tabs: seq<Tab>, active: Option<nat>, shown: set<TabId>, closed: seq<Closed>, nextId: TabId)

  // ---- lists of tabs ----------------------------------------------------------------------------

  function RemoveAt<T>(s: seq<T>, i: nat): seq<T>
    requires i < |s|
  {
    s[..i] + s[i + 1..]
  }

  function InsertAt<T>(s: seq<T>, i: nat, x: T): seq<T>
    requires i <= |s|
  {
    s[..i] + [x] + s[i..]
  }

  function Position(tabs: seq<Tab>, id: TabId): (p: Option<nat>)
    ensures p.Some? ==> p.value < |tabs| && tabs[p.value].id == id
    ensures p.None? <==> forall i :: 0 <= i < |tabs| ==> tabs[i].id != id
  {
    if tabs == [] then None
    else if tabs[0].id == id then Some(0)
    else
      match Position(tabs[1..], id)
      case None => assert forall i :: 1 <= i < |tabs| ==> tabs[i] == tabs[1..][i - 1]; None
      case Some(p) => Some(p + 1)
  }

  function WithPin(tabs: seq<Tab>, pinned: bool): (r: seq<Tab>)
    ensures forall t :: t in r <==> t in tabs && t.pinned == pinned
  {
    if tabs == [] then []
    else
      assert forall t :: t in tabs <==> t == tabs[0] || t in tabs[1..];
      if tabs[0].pinned == pinned then [tabs[0]] + WithPin(tabs[1..], pinned) else WithPin(tabs[1..], pinned)
  }

  function PinnedCount(tabs: seq<Tab>): nat {
    |WithPin(tabs, true)|
  }

  predicate Distinct(tabs: seq<Tab>) {
    forall i, j :: 0 <= i < j < |tabs| ==> tabs[i].id != tabs[j].id
  }

  /** Every pinned tab before every unpinned one. */
  predicate PinnedFirst(tabs: seq<Tab>) {
    forall i, j :: 0 <= i < j < |tabs| && tabs[j].pinned ==> tabs[i].pinned
  }

  predicate Has(tabs: seq<Tab>, id: TabId) {
    exists i :: 0 <= i < |tabs| && tabs[i].id == id
  }

  // ---- the engine's operations ------------------------------------------------------------------

  function SetActive(s: Strip, i: nat): Strip {
    if i >= |s.tabs| then s
    else
      var hidden :=
        if s.active.Some? && s.active.value < |s.tabs| && s.active.value != i
        then s.shown - {s.tabs[s.active.value].id} else s.shown;
      s.(shown := hidden + {s.tabs[i].id}, active := Some(i))
  }

  function ActiveAfterClose(active: Option<nat>, removed: nat): Option<nat> {
    if active.Some? && removed < active.value then Some(active.value - 1) else active
  }

  /** Push on the undo stack; the oldest entries beyond the cap fall out. */
  function Stash(closed: seq<Closed>, c: Closed): seq<Closed> {
    var grown := closed + [c];
    grown[Max(|grown| - CLOSED_STACK_CAP, 0)..]
  }

  /** The list without slot `i`, before a new active tab is chosen. */
  function Detached(s: Strip, i: nat): Strip
    requires i < |s.tabs|
  {
    var t := s.tabs[i];
    s.(tabs := RemoveAt(s.tabs, i), shown := s.shown - {t.id}, active := ActiveAfterClose(s.active, i),
       closed := if t.url.Page? then Stash(s.closed, Closed(t, i)) else s.closed)
  }

  function CloseIndex(s: Strip, i: nat): Strip {
    if i >= |s.tabs| then s
    else
      var rest := Detached(s, i);
      if rest.tabs == [] then rest.(active := None) else SetActive(rest, Min(i, |rest.tabs| - 1))
  }

  function CloseTab(s: Strip, id: TabId): Strip {
    var p := Position(s.tabs, id);
    if p.Some? then CloseIndex(s, p.value) else s
  }

  function SelectTab(s: Strip, id: TabId): Strip {
    var p := Position(s.tabs, id);
    if p.Some? then SetActive(s, p.value) else s
  }

  function OpenBackground(s: Strip, url: Url): Strip {
    s.(tabs := s.tabs + [Tab(s.nextId, false, url)], nextId := s.nextId + 1)
  }

  function Open(s: Strip, url: Url): Strip {
    SetActive(OpenBackground(s, url), |s.tabs|)
  }

  function OpenAt(s: Strip, at: nat, url: Url): Strip {
    var i := Min(at, |s.tabs|);
    var placed := OpenBackground(s, url).(
      tabs := InsertAt(s.tabs, i, Tab(s.nextId, false, url)),
      active := if s.active.Some? && i <= s.active.value < |s.tabs| then Some(s.active.value + 1) else s.active);
    SetActive(placed, i)
  }

  function EnforcePinnedOrdering(s: Strip): Strip {
    var tabs := WithPin(s.tabs, true) + WithPin(s.tabs, false);
    s.(tabs := tabs,
       active := if s.active.Some? && s.active.value < |s.tabs|
                 then Position(tabs, s.tabs[s.active.value].id) else None)
  }

  function SetPinned(s: Strip, id: TabId, pinned: bool): Strip {
    var p := Position(s.tabs, id);
    EnforcePinnedOrdering(
      if p.Some? then s.(tabs := s.tabs[p.value := s.tabs[p.value].(pinned := pinned)]) else s)
  }

  function TogglePinActive(s: Strip): Strip {
    if s.active.Some? && s.active.value < |s.tabs| then
      var t := s.tabs[s.active.value];
      EnforcePinnedOrdering(s.(tabs := s.tabs[s.active.value := t.(pinned := !t.pinned)]))
    else s
  }

  function ReopenClosed(s: Strip): Strip {
    if s.closed == [] then s
    else
      var c := s.closed[|s.closed| - 1];
      var i := Min(c.index, |s.tabs|);
      var back := s.(closed := s.closed[..|s.closed| - 1],
                     tabs := InsertAt(s.tabs, i, c.tab), shown := s.shown + {c.tab.id});
      EnforcePinnedOrdering(SetActive(back, i))
  }

  lemma {:induction false} PinCounts(tabs: seq<Tab>)
    ensures |WithPin(tabs, true)| + |WithPin(tabs, false)| == |tabs|
    ensures forall i :: 0 <= i < |tabs| ==> |WithPin(tabs, tabs[i].pinned)| > 0
  {
    if tabs != [] {
      PinCounts(tabs[1..]);
      forall i | 0 <= i < |tabs| ensures |WithPin(tabs, tabs[i].pinned)| > 0 {
        assert tabs[i] in WithPin(tabs, tabs[i].pinned);
      }
    }
  }

  /** Where a drag may land: the source tab's own region. */
  function Landing(tabs: seq<Tab>, from: nat, to: nat): (dst: nat)
    requires from < |tabs|
    ensures dst < |tabs|
    ensures if tabs[from].pinned then dst < PinnedCount(tabs) else dst >= PinnedCount(tabs)
  {
    PinCounts(tabs);
    var n := PinnedCount(tabs);
    var lo, hi := if tabs[from].pinned then 0 else n, if tabs[from].pinned then n - 1 else |tabs| - 1;
    if to < lo then lo else if to > hi then hi else to
  }

  function ActiveAfterMove(a: nat, from: nat, to: nat): nat {
    if a == from then to
    else if from < a <= to then a - 1
    else if to <= a < from then a + 1
    else a
  }

  function MoveTab(s: Strip, from: nat, to: nat): Strip {
    if from == to || from >= |s.tabs| then s
    else
      var dst := Landing(s.tabs, from, to);
      if dst == from then s
      else
        s.(tabs := InsertAt(RemoveAt(s.tabs, from), dst, s.tabs[from]),
           active := if s.active.Some? then Some(ActiveAfterMove(s.active.value, from, dst)) else None)
  }

  function CycleIndex(cur: nat, n: nat, forward: bool): nat
    requires n > 1
  {
    if forward then (cur + 1) % n else if cur == 0 then n - 1 else cur - 1
  }

  function CycleTab(s: Strip, forward: bool): Strip {
    if |s.tabs| <= 1 then s
    else SetActive(s, CycleIndex(if s.active.Some? then s.active.value else 0, |s.tabs|, forward))
  }

  // ---- what every operation keeps ---------------------------------------------------------------

  /** Ids are never shared, not even with the undo stack. */
  predicate SoundLists(tabs: seq<Tab>, closed: seq<Closed>, nextId: TabId) {
    && Distinct(tabs)
    && (forall t :: t in tabs ==> t.id < nextId)
    && (forall c :: c in closed ==> c.tab.id < nextId && !Has(tabs, c.tab.id))
    && (forall i, j :: 0 <= i < j < |closed| ==> closed[i].tab.id != closed[j].tab.id)
  }

  predicate Sound(s: Strip) {
    SoundLists(s.tabs, s.closed, s.nextId) && (s.active.Some? ==> s.active.value < |s.tabs|)
  }

  function ActiveId(s: Strip): Option<TabId> {
    if s.active.Some? && s.active.value < |s.tabs| then Some(s.tabs[s.active.value].id) else None
  }

  function IdSet(id: Option<TabId>): set<TabId> {
    if id.Some? then {id.value} else {}
  }

  /** Exactly the active tab runs in the foreground. */
  predicate Foreground(s: Strip) {
    s.shown == IdSet(ActiveId(s))
  }

  lemma SetActiveShowsOne(s: Strip, i: nat)
    requires i < |s.tabs| && s.shown <= IdSet(ActiveId(s))
    requires s.active.Some? && s.active.value < |s.tabs| && s.active.value != i
             ==> s.tabs[s.active.value].id != s.tabs[i].id
    ensures var r := SetActive(s, i);
            Foreground(r) && ActiveId(r) == Some(s.tabs[i].id) && r == s.(active := Some(i), shown := r.shown)
  {
  }

  lemma RemoveAtDistinct(tabs: seq<Tab>, i: nat)
    requires Distinct(tabs) && i < |tabs|
    ensures var r := RemoveAt(tabs, i);
            && |r| == |tabs| - 1 && Distinct(r) && !Has(r, tabs[i].id)
            && (forall t :: t in r <==> t in tabs && t != tabs[i])
  {
    var r := RemoveAt(tabs, i);
    assert forall k :: 0 <= k < |r| ==> r[k] == if k < i then tabs[k] else tabs[k + 1];
    forall t ensures t in r <==> t in tabs && t != tabs[i] {
      if t in tabs && t != tabs[i] {
        var k :| 0 <= k < |tabs| && tabs[k] == t;
        assert r[if k < i then k else k - 1] == t;
      }
    }
  }

  lemma RemoveKeepsSound(s: Strip, i: nat)
    requires Sound(s) && i < |s.tabs|
    ensures SoundLists(RemoveAt(s.tabs, i), s.closed, s.nextId)
    ensures SoundLists(RemoveAt(s.tabs, i), Stash(s.closed, Closed(s.tabs[i], i)), s.nextId)
  {
    RemoveAtDistinct(s.tabs, i);
    var c := Closed(s.tabs[i], i);
    assert forall d :: d in Stash(s.closed, c) ==> d in s.closed || d == c;
    assert s.tabs[i] in s.tabs;
    var rest := RemoveAt(s.tabs, i);
    forall d | d in s.closed ensures !Has(rest, d.tab.id) {
      forall k | 0 <= k < |rest| ensures rest[k].id != d.tab.id {
        assert rest[k] in s.tabs;
      }
    }
  }

  lemma DistinctAt(tabs: seq<Tab>, a: Option<nat>, i: nat)
    requires Distinct(tabs) && i < |tabs|
    ensures a.Some? && a.value < |tabs| && a.value != i ==> tabs[a.value].id != tabs[i].id
  {
  }

  lemma ShiftedActive(tabs: seq<Tab>, active: nat, i: nat)
    requires Distinct(tabs) && i < |tabs| && active < |tabs| && active != i
    ensures var a := ActiveAfterClose(Some(active), i).value;
            a < |tabs| - 1 && RemoveAt(tabs, i)[a] == tabs[active] && tabs[active].id != tabs[i].id
  {
  }

  lemma CloseSound(s: Strip, i: nat)
    requires Sound(s) && i < |s.tabs|
    ensures var r := CloseIndex(s, i); Sound(r) && r.tabs == RemoveAt(s.tabs, i)
  {
    RemoveAtDistinct(s.tabs, i);
    RemoveKeepsSound(s, i);
    hide SoundLists, Stash, RemoveAt, Distinct, Has, ActiveAfterClose;
  }

  lemma DetachedShows(s: Strip, i: nat)
    requires Sound(s) && Foreground(s) && i < |s.tabs|
    ensures var d := Detached(s, i); d.shown <= IdSet(ActiveId(d))
  {
    if s.active.Some? && s.active.value != i {
      ShiftedActive(s.tabs, s.active.value, i);
    }
    hide SoundLists, Stash, RemoveAt, Distinct, Has;
  }

  /** The tab at slot `i` of what is left, or the last one. */
  function IdNear(tabs: seq<Tab>, i: nat): Option<TabId> {
    if tabs == [] then None else Some(tabs[Min(i, |tabs| - 1)].id)
  }

  /**
   Closing slot `i`: the list loses exactly that tab, one tab stays in the foreground, and it is the
   right neighbour of the closed one, or the new last tab, whichever tab was active before.
  */
  lemma CloseKeeps(s: Strip, i: nat)
    requires Sound(s) && Foreground(s) && i < |s.tabs|
    ensures var r := CloseIndex(s, i);
            Sound(r) && Foreground(r) && r.tabs == RemoveAt(s.tabs, i) && ActiveId(r) == IdNear(r.tabs, i)
  {
    CloseSound(s, i);
    RemoveAtDistinct(s.tabs, i);
    DetachedShows(s, i);
    var d := Detached(s, i);
    if d.tabs != [] {
      var m := Min(i, |d.tabs| - 1);
      DistinctAt(d.tabs, d.active, m);
      hide Sound, SoundLists, Stash, RemoveAt, Distinct, Has, Detached;
      SetActiveShowsOne(d, m);
      hide SetActive;
    }
  }

  /** So closing a tab in the background takes the focus with it, except from the tab that was about to get it. */
  lemma CloseKeepsFocusIff(s: Strip, i: nat)
    requires Sound(s) && Foreground(s) && i < |s.tabs| && s.active.Some? && i != s.active.value
    ensures ActiveId(CloseIndex(s, i)) == ActiveId(s)
            <==> s.active.value == i + 1 || (s.active.value == i - 1 && i == |s.tabs| - 1)
  {
    CloseKeeps(s, i);
    hide SoundLists, CloseIndex, Foreground;
  }

  // ---- opening ----------------------------------------------------------------------------------

  lemma InsertAtDistinct(tabs: seq<Tab>, i: nat, t: Tab)
    requires i <= |tabs| && Distinct(tabs) && !Has(tabs, t.id)
    ensures Distinct(InsertAt(tabs, i, t))
    ensures forall x :: x in InsertAt(tabs, i, t) <==> x in tabs || x == t
  {
    var r := InsertAt(tabs, i, t);
    assert forall k :: 0 <= k < |r| ==> r[k] == if k < i then tabs[k] else if k == i then t else tabs[k - 1];
    assert forall x :: x in tabs ==> x in tabs[..i] || x in tabs[i..];
  }

  lemma InsertKeepsSound(s: Strip, i: nat, t: Tab, closed: seq<Closed>, nextId: TabId)
    requires Sound(s) && i <= |s.tabs| && nextId >= s.nextId && t.id < nextId
    requires closed <= s.closed && !Has(s.tabs, t.id)
    requires forall c :: c in closed ==> c.tab.id != t.id
    ensures SoundLists(InsertAt(s.tabs, i, t), closed, nextId)
  {
    InsertAtDistinct(s.tabs, i, t);
    var r := InsertAt(s.tabs, i, t);
    forall c | c in closed ensures c.tab.id < nextId && !Has(r, c.tab.id) {
      assert c in s.closed;
      forall k | 0 <= k < |r| ensures r[k].id != c.tab.id {
        assert r[k] in s.tabs || r[k] == t;
      }
    }
  }

  lemma NextIdUnused(s: Strip)
    requires Sound(s)
    ensures !Has(s.tabs, s.nextId) && forall c :: c in s.closed ==> c.tab.id != s.nextId
  {
    assert forall i :: 0 <= i < |s.tabs| ==> s.tabs[i] in s.tabs;
  }

  lemma OpenBackgroundKeeps(s: Strip, url: Url)
    requires Sound(s)
    ensures var r := OpenBackground(s, url); Sound(r) && (Foreground(s) ==> Foreground(r)) && ActiveId(r) == ActiveId(s)
  {
    NextIdUnused(s);
    InsertKeepsSound(s, |s.tabs|, Tab(s.nextId, false, url), s.closed, s.nextId + 1);
    assert InsertAt(s.tabs, |s.tabs|, Tab(s.nextId, false, url)) == OpenBackground(s, url).tabs;
  }

  lemma OpenKeeps(s: Strip, url: Url)
    requires Sound(s)
    ensures var r := Open(s, url); Sound(r) && (Foreground(s) ==> Foreground(r)) && ActiveId(r) == Some(s.nextId)
  {
    OpenBackgroundKeeps(s, url);
    var placed := OpenBackground(s, url);
    DistinctAt(placed.tabs, placed.active, |s.tabs|);
    if Foreground(s) { SetActiveShowsOne(placed, |s.tabs|); }
  }

  /** A tab opened at a slot becomes the one in the foreground. */
  lemma OpenAtKeeps(s: Strip, at: nat, url: Url)
    requires Sound(s)
    ensures var r := OpenAt(s, at, url); Sound(r) && (Foreground(s) ==> Foreground(r)) && ActiveId(r) == Some(s.nextId)
  {
    NextIdUnused(s);
    var i := Min(at, |s.tabs|);
    var t := Tab(s.nextId, false, url);
    InsertKeepsSound(s, i, t, s.closed, s.nextId + 1);
    var active := if s.active.Some? && i <= s.active.value < |s.tabs| then Some(s.active.value + 1) else s.active;
    var placed := OpenBackground(s, url).(tabs := InsertAt(s.tabs, i, t), active := active);
    assert s.active.Some? ==> placed.tabs[active.value] == s.tabs[s.active.value];
    DistinctAt(placed.tabs, active, i);
    hide SoundLists, Has, Distinct, InsertAt;
    if Foreground(s) { SetActiveShowsOne(placed, i); }
  }

  lemma {:induction false} PinnedAreFirst(tabs: seq<Tab>, i: nat)
    requires PinnedFirst(tabs) && i < |tabs|
    ensures tabs[i].pinned <==> i < PinnedCount(tabs)
  {
    if tabs[0].pinned {
      if i > 0 {
        assert PinnedFirst(tabs[1..]);
        PinnedAreFirst(tabs[1..], i - 1);
      }
    } else {
      WithPinOfUniform(tabs, false);
    }
  }

  /**
   Opening at a slot keeps pinned tabs leading exactly when the slot is behind all of them. Only one
   of the callers clamps it there; duplicating a pinned tab and pasting a URL beside one do not.
  */
  lemma OpenAtKeepsPinnedFirstIff(s: Strip, at: nat, url: Url)
    requires PinnedFirst(s.tabs)
    ensures PinnedFirst(OpenAt(s, at, url).tabs) <==> Min(at, |s.tabs|) >= PinnedCount(s.tabs)
  {
    var i := Min(at, |s.tabs|);
    var r := InsertAt(s.tabs, i, Tab(s.nextId, false, url));
    assert OpenAt(s, at, url).tabs == r;
    assert forall k :: 0 <= k < |r| && k != i ==> r[k] == s.tabs[if k < i then k else k - 1];
    PinCounts(s.tabs);
    forall k | 0 <= k < |s.tabs| ensures s.tabs[k].pinned <==> k < PinnedCount(s.tabs) {
      PinnedAreFirst(s.tabs, k);
    }
    if i < PinnedCount(s.tabs) {
      assert !r[i].pinned && r[i + 1].pinned;
    }
  }

  // ---- pinning, reopening, dragging -------------------------------------------------------------

  lemma {:induction false} WithPinDistinct(tabs: seq<Tab>, pinned: bool)
    requires Distinct(tabs)
    ensures Distinct(WithPin(tabs, pinned))
  {
    if tabs != [] {
      WithPinDistinct(tabs[1..], pinned);
      assert forall t :: t in WithPin(tabs[1..], pinned) ==> t in tabs[1..];
    }
  }

  lemma {:induction false} WithPinOfUniform(tabs: seq<Tab>, pinned: bool)
    requires forall t :: t in tabs ==> t.pinned == pinned
    ensures WithPin(tabs, pinned) == tabs && WithPin(tabs, !pinned) == []
  {
    if tabs != [] {
      WithPinOfUniform(tabs[1..], pinned);
    }
  }

  lemma {:induction false} WithPinOfConcat(a: seq<Tab>, b: seq<Tab>, pinned: bool)
    ensures WithPin(a + b, pinned) == WithPin(a, pinned) + WithPin(b, pinned)
  {
    if a == [] {
      assert a + b == b;
    } else {
      assert (a + b)[1..] == a[1..] + b;
      WithPinOfConcat(a[1..], b, pinned);
    }
  }

  function Partitioned(tabs: seq<Tab>): seq<Tab> {
    WithPin(tabs, true) + WithPin(tabs, false)
  }

  /** The re-partition is stable: pinned tabs lead, and neither group is reordered. */
  lemma PartitionStable(tabs: seq<Tab>)
    requires Distinct(tabs)
    ensures var r := Partitioned(tabs);
            && PinnedFirst(r) && Distinct(r) && |r| == |tabs|
            && (forall t :: t in r <==> t in tabs)
            && forall p :: WithPin(r, p) == WithPin(tabs, p)
  {
    var a, b := WithPin(tabs, true), WithPin(tabs, false);
    PinCounts(tabs);
    WithPinDistinct(tabs, true);
    WithPinDistinct(tabs, false);
    forall x, y | x in a && y in b ensures x.id != y.id {
      assert x in tabs && y in tabs;
    }
    forall p ensures WithPin(a + b, p) == WithPin(tabs, p) {
      WithPinOfConcat(a, b, p);
      WithPinOfUniform(a, true);
      WithPinOfUniform(b, false);
    }
  }

  /** And the focus follows its tab through it. */
  lemma EnforceKeeps(s: Strip)
    requires Sound(s)
    ensures var r := EnforcePinnedOrdering(s);
            && Sound(r) && PinnedFirst(r.tabs) && ActiveId(r) == ActiveId(s) && r.shown == s.shown
            && (forall t :: t in r.tabs <==> t in s.tabs)
  {
    PartitionStable(s.tabs);
    var tabs := Partitioned(s.tabs);
    assert EnforcePinnedOrdering(s).tabs == tabs;
    forall id ensures Has(tabs, id) <==> Has(s.tabs, id) {
      SameIds(tabs, s.tabs, id);
      SameIds(s.tabs, tabs, id);
    }
  }

  lemma SameIds(a: seq<Tab>, b: seq<Tab>, id: TabId)
    requires forall t :: t in a ==> t in b
    ensures Has(a, id) ==> Has(b, id)
  {
    if Has(a, id) {
      var i :| 0 <= i < |a| && a[i].id == id;
      assert a[i] in b;
    }
  }

  lemma RepinKeepsSound(s: Strip, p: nat, pinned: bool)
    requires Sound(s) && p < |s.tabs|
    ensures var r := s.(tabs := s.tabs[p := s.tabs[p].(pinned := pinned)]);
            Sound(r) && ActiveId(r) == ActiveId(s) && forall id :: Has(r.tabs, id) <==> Has(s.tabs, id)
  {
    var tabs := s.tabs[p := s.tabs[p].(pinned := pinned)];
    assert forall i :: 0 <= i < |tabs| ==> tabs[i].id == s.tabs[i].id;
    assert forall i :: 0 <= i < |tabs| ==> s.tabs[i] in s.tabs;
  }

  /** Reopening puts the tab back, pinned tabs first, and makes it the active one. */
  lemma ReopenRestores(s: Strip)
    requires Sound(s) && s.closed != []
    ensures var r, c := ReopenClosed(s), s.closed[|s.closed| - 1];
            && Sound(r) && PinnedFirst(r.tabs) && ActiveId(r) == Some(c.tab.id)
            && (forall t :: t in r.tabs <==> t in s.tabs || t == c.tab)
            && r.shown == SetActive(s.(tabs := InsertAt(s.tabs, Min(c.index, |s.tabs|), c.tab),
                                       shown := s.shown + {c.tab.id}), Min(c.index, |s.tabs|)).shown
  {
    var n := |s.closed| - 1;
    var c := s.closed[n];
    var i := Min(c.index, |s.tabs|);
    assert c in s.closed;
    InsertKeepsSound(s, i, c.tab, s.closed[..n], s.nextId);
    InsertAtDistinct(s.tabs, i, c.tab);
    hide SoundLists, Has, Distinct, EnforcePinnedOrdering, PinnedFirst;
    var back := s.(closed := s.closed[..n], tabs := InsertAt(s.tabs, i, c.tab), shown := s.shown + {c.tab.id});
    SelectInserted(back, i);
    hide InsertAt;
    EnforceKeeps(SetActive(back, i));
  }

  lemma SelectInserted(s: Strip, i: nat)
    requires SoundLists(s.tabs, s.closed, s.nextId) && i < |s.tabs|
    ensures var r := SetActive(s, i);
            Sound(r) && ActiveId(r) == Some(s.tabs[i].id) && r.tabs == s.tabs && r.closed == s.closed
  {
    hide SoundLists;
  }

  lemma InsertedNear<T>(s: seq<T>, i: nat, x: T, a: nat)
    requires i <= |s| && a < |s|
    ensures var r := InsertAt(s, i, x);
            |r| == |s| + 1 && r[i] == x && (a < i ==> r[a] == s[a]) && (a > i ==> r[a] == s[a - 1])
  {
  }

  /** Selecting the inserted tab through an active slot that was not shifted for it. */
  lemma UncorrectedInsert(s: Strip, i: nat, t: Tab)
    requires Distinct(s.tabs) && i <= |s.tabs| && !Has(s.tabs, t.id)
    requires s.active.Some? && s.active.value < |s.tabs| && s.shown == {s.tabs[s.active.value].id}
    ensures var was := s.tabs[s.active.value].id;
            SetActive(s.(tabs := InsertAt(s.tabs, i, t), shown := s.shown + {t.id}), i).shown
            == if s.active.value < i then {t.id} else {was, t.id}
  {
    var a := s.active.value;
    if a > i { assert s.tabs[a - 1].id != s.tabs[a].id; }
    assert s.tabs[a].id != t.id;
    hide InsertAt, Distinct, Has;
    InsertedNear(s.tabs, i, t, a);
  }

  /**
   Reopening leaves only the restored tab in the foreground exactly when it goes back behind the
   active one: the active slot is not corrected for the insertion, so a tab restored at or before it
   is hidden in place of the tab that was active, which keeps running.
  */
  lemma ReopenForegroundIff(s: Strip)
    requires Sound(s) && Foreground(s) && s.closed != []
    ensures Foreground(ReopenClosed(s))
            <==> s.active.None? || Min(s.closed[|s.closed| - 1].index, |s.tabs|) > s.active.value
  {
    ReopenRestores(s);
    var c := s.closed[|s.closed| - 1];
    assert c in s.closed;
    hide SoundLists, ReopenClosed, InsertAt, PinnedFirst, Distinct;
    if s.active.Some? {
      SoundMembers(s, c);
      assert s.tabs[s.active.value].id != c.tab.id;
      UncorrectedInsert(s, Min(c.index, |s.tabs|), c.tab);
      hide SetActive;
    }
  }

  lemma SoundMembers(s: Strip, c: Closed)
    requires Sound(s) && c in s.closed
    ensures Distinct(s.tabs) && !Has(s.tabs, c.tab.id)
  {
  }

  /** The slot a tab came from, when the one at `from` has moved to `to`. */
  function MovedFrom(k: nat, from: nat, to: nat): nat {
    if k == to then from
    else if from <= k < to then k + 1
    else if to < k <= from then k - 1
    else k
  }

  lemma MovedAt(tabs: seq<Tab>, from: nat, to: nat)
    requires from < |tabs| && to < |tabs|
    ensures var r := InsertAt(RemoveAt(tabs, from), to, tabs[from]);
            |r| == |tabs| && forall k :: 0 <= k < |tabs| ==> MovedFrom(k, from, to) < |tabs| && r[k] == tabs[MovedFrom(k, from, to)]
  {
    var rest := RemoveAt(tabs, from);
    assert forall k :: 0 <= k < |rest| ==> rest[k] == tabs[if k < from then k else k + 1];
    var r := InsertAt(rest, to, tabs[from]);
    assert forall k :: 0 <= k < |r| && k != to ==> r[k] == rest[if k < to then k else k - 1];
  }

  /**
   Dragging only permutes the list: no tab is lost or repeated, pinned tabs stay in front, and the
   focus stays on its tab wherever that ends up.
  */
  lemma MoveKeeps(s: Strip, from: nat, to: nat)
    requires Sound(s)
    ensures var r := MoveTab(s, from, to);
            && Sound(r) && ActiveId(r) == ActiveId(s) && r.shown == s.shown
            && (forall t :: t in r.tabs <==> t in s.tabs)
            && (PinnedFirst(s.tabs) ==> PinnedFirst(r.tabs))
  {
    if from != to && from < |s.tabs| {
      var dst := Landing(s.tabs, from, to);
      if dst != from {
        MoveWithin(s.tabs, from, dst);
        var tabs := InsertAt(RemoveAt(s.tabs, from), dst, s.tabs[from]);
        PermutedSound(s, tabs);
        if s.active.Some? {
          ActiveFollows(s.active.value, from, dst, |s.tabs|);
        }
        hide Landing, MovedFrom, ActiveAfterMove, SoundLists, PinnedFirst, InsertAt, RemoveAt;
      }
    }
  }

  lemma ActiveFollows(a: nat, from: nat, to: nat, n: nat)
    requires from < n && to < n && a < n
    ensures MovedFrom(ActiveAfterMove(a, from, to), from, to) == a && ActiveAfterMove(a, from, to) < n
  {
  }

  lemma PermutedSound(s: Strip, tabs: seq<Tab>)
    requires Sound(s) && Distinct(tabs) && forall t :: t in tabs <==> t in s.tabs
    ensures SoundLists(tabs, s.closed, s.nextId)
  {
    forall id ensures Has(tabs, id) <==> Has(s.tabs, id) {
      SameIds(tabs, s.tabs, id);
      SameIds(s.tabs, tabs, id);
    }
    hide Has, Distinct;
  }

  lemma MovedMembers(tabs: seq<Tab>, r: seq<Tab>, from: nat, dst: nat)
    requires from < |tabs| && dst < |tabs| && |r| == |tabs|
    requires forall k :: 0 <= k < |tabs| ==> MovedFrom(k, from, dst) < |tabs| && r[k] == tabs[MovedFrom(k, from, dst)]
    ensures forall t :: t in r <==> t in tabs
  {
    forall t | t in tabs ensures t in r {
      var j :| 0 <= j < |tabs| && tabs[j] == t;
      assert r[MovedFrom(j, dst, from)] == t;
    }
  }

  lemma MoveWithin(tabs: seq<Tab>, from: nat, dst: nat)
    requires from < |tabs| && dst < |tabs| && Distinct(tabs)
    requires tabs[from].pinned <==> dst < PinnedCount(tabs)
    ensures var r := InsertAt(RemoveAt(tabs, from), dst, tabs[from]);
            && |r| == |tabs| && Distinct(r) && (forall t :: t in r <==> t in tabs)
            && (forall k :: 0 <= k < |tabs| ==> MovedFrom(k, from, dst) < |tabs| && r[k] == tabs[MovedFrom(k, from, dst)])
            && (PinnedFirst(tabs) ==> PinnedFirst(r))
  {
    MovedAt(tabs, from, dst);
    var r := InsertAt(RemoveAt(tabs, from), dst, tabs[from]);
    MovedMembers(tabs, r, from, dst);
    hide InsertAt, RemoveAt;
    if PinnedFirst(tabs) {
      var n := PinnedCount(tabs);
      forall k | 0 <= k < |tabs| ensures tabs[k].pinned <==> k < n {
        PinnedAreFirst(tabs, k);
      }
      assert forall k :: 0 <= k < |r| ==> (r[k].pinned <==> k < n);
    }
  }

  lemma {:induction false} PartitionOfPinnedFirst(tabs: seq<Tab>)
    requires PinnedFirst(tabs)
    ensures Partitioned(tabs) == tabs
  {
    if tabs != [] {
      if tabs[0].pinned {
        PartitionOfPinnedFirst(tabs[1..]);
      } else {
        assert forall t :: t in tabs ==> !t.pinned;
        WithPinOfUniform(tabs, false);
      }
    }
  }

  lemma RemoveThenInsert(tabs: seq<Tab>, i: nat)
    requires i < |tabs|
    ensures InsertAt(RemoveAt(tabs, i), i, tabs[i]) == tabs
  {
  }

  lemma StashKeepsLast(closed: seq<Closed>, c: Closed)
    ensures var r := Stash(closed, c);
            && 0 < |r| <= CLOSED_STACK_CAP && r[|r| - 1] == c
            && (|closed| < CLOSED_STACK_CAP ==> r == closed + [c])
            && r[..|r| - 1] <= closed[|closed| - (|r| - 1)..]
  {
  }

  lemma ReopenedLists(s: Strip)
    requires s.closed != []
    ensures var r, c := ReopenClosed(s), s.closed[|s.closed| - 1];
            && r.tabs == Partitioned(InsertAt(s.tabs, Min(c.index, |s.tabs|), c.tab))
            && r.closed == s.closed[..|s.closed| - 1]
  {
    hide InsertAt, WithPin;
  }

  lemma ClosedLists(s: Strip, i: nat)
    requires i < |s.tabs| && s.tabs[i].url.Page?
    ensures var r := CloseIndex(s, i);
            r.tabs == RemoveAt(s.tabs, i) && r.closed == Stash(s.closed, Closed(s.tabs[i], i))
  {
    hide RemoveAt, Stash;
  }

  /** Reopening undoes a close: the list is as it was, and the tab that was closed has the focus. */
  lemma ReopenUndoesClose(s: Strip, i: nat)
    requires Sound(s) && PinnedFirst(s.tabs) && i < |s.tabs| && s.tabs[i].url.Page?
    ensures var r := ReopenClosed(CloseIndex(s, i));
            && r.tabs == s.tabs && ActiveId(r) == Some(s.tabs[i].id)
            && (|s.closed| < 8 ==> r.closed == s.closed)
  {
    CloseSound(s, i);
    RemoveAtDistinct(s.tabs, i);
    hide Sound, PinnedFirst, RemoveAt, InsertAt, Distinct, Has, Stash, Partitioned, CloseIndex, ReopenClosed;
    var d := CloseIndex(s, i);
    ClosedLists(s, i);
    StashKeepsLast(s.closed, Closed(s.tabs[i], i));
    ReopenedLists(d);
    ReopenRestores(d);
    RemoveThenInsert(s.tabs, i);
    PartitionOfPinnedFirst(s.tabs);
    if |s.closed| < CLOSED_STACK_CAP {
      assert (s.closed + [Closed(s.tabs[i], i)])[..|s.closed|] == s.closed;
    }
  }

  lemma CycleInside(cur: nat, n: nat, forward: bool)
    requires n > 1
    ensures cur < n || forward ==> CycleIndex(cur, n, forward) < n
    ensures cur < n ==> CycleIndex(CycleIndex(cur, n, forward), n, !forward) == cur
  {
    if cur < n - 1 {
      assert (cur + 1) % n == cur + 1;
    }
    if 0 < cur < n {
      assert (cur - 1 + 1) % n == cur;
    }
  }

  /** Stepping goes to the neighbouring slot, around the end. */
  lemma CycleVisitsNeighbour(s: Strip, forward: bool)
    requires Sound(s) && s.active.Some?
    ensures var n, a := |s.tabs|, s.active.value;
            var r := CycleTab(s, forward);
            && r.tabs == s.tabs
            && r.active == Some(if forward then (if a == n - 1 then 0 else a + 1) else (if a == 0 then n - 1 else a - 1))
            && (Foreground(s) ==> Foreground(r))
  {
    if |s.tabs| > 1 {
      if s.active.value < |s.tabs| - 1 {
        assert (s.active.value + 1) % |s.tabs| == s.active.value + 1;
      }
      SelectKeeps(s, CycleIndex(s.active.value, |s.tabs|, forward));
    }
    hide SoundLists;
  }

  /** Stepping to the next tab and back, or back and on, ends where it began. */
  lemma CycleThereAndBack(s: Strip, forward: bool)
    requires Sound(s) && s.active.Some?
    ensures ActiveId(CycleTab(CycleTab(s, forward), !forward)) == ActiveId(s)
  {
    if |s.tabs| > 1 {
      CycleInside(s.active.value, |s.tabs|, forward);
      hide Sound, SoundLists, CycleIndex;
    }
  }

  // ---- what the operations do -------------------------------------------------------------------

  /** The new tab of an open: fresh id, not pinned, the page asked for, in its slot; and nothing else has moved. */
  lemma OpensAt(s: Strip, at: nat, url: Url)
    ensures var t, n := Tab(s.nextId, false, url), |s.tabs|;
            var i := Min(at, n);
            && OpenAt(s, at, url).tabs == s.tabs[..i] + [t] + s.tabs[i..]
            && Open(s, url).tabs == s.tabs + [t] && OpenBackground(s, url).tabs == s.tabs + [t]
            && OpenAt(s, at, url).closed == Open(s, url).closed == OpenBackground(s, url).closed == s.closed
            && OpenAt(s, at, url).active == Some(i) && Open(s, url).active == Some(n)
            && OpenBackground(s, url).active == s.active && OpenBackground(s, url).shown == s.shown
  {
  }

  /** Only a page that can be shown again is kept for reopening. */
  lemma OnlyPagesAreKept(s: Strip, i: nat)
    requires i < |s.tabs| && !s.tabs[i].url.Page?
    ensures CloseIndex(s, i).closed == s.closed && CloseIndex(s, i).tabs == RemoveAt(s.tabs, i)
  {
    hide RemoveAt;
  }

  /** Selecting shows exactly that tab; with an id that is gone nothing happens. */
  lemma SelectShows(s: Strip, id: TabId)
    requires Sound(s) && Foreground(s)
    ensures var r := SelectTab(s, id);
            if Has(s.tabs, id) then r.tabs == s.tabs && ActiveId(r) == Some(id) && r.shown == {id} else r == s
  {
    var p := Position(s.tabs, id);
    if p.Some? { SelectKeeps(s, p.value); }
  }

  /**
   Pinning or unpinning a tab changes that tab's pin and no other, whichever way it was asked for; the
   focus stays on its tab, and pinned tabs lead afterwards.
  */
  lemma PinChangesOne(s: Strip, id: TabId, pinned: bool)
    requires Sound(s) && Has(s.tabs, id)
    ensures var r, t := SetPinned(s, id, pinned), s.tabs[Position(s.tabs, id).value];
            && ActiveId(r) == ActiveId(s) && PinnedFirst(r.tabs)
            && forall x :: x in r.tabs <==> x == t.(pinned := pinned) || (x in s.tabs && x.id != id)
    ensures ActiveId(s) == Some(id) ==>
              TogglePinActive(s) == SetPinned(s, id, !s.tabs[Position(s.tabs, id).value].pinned)
  {
    var p := Position(s.tabs, id).value;
    RepinKeeps(s, p, pinned);
    RepinKeepsSound(s, p, pinned);
    EnforceKeeps(s.(tabs := s.tabs[p := s.tabs[p].(pinned := pinned)]));
    DistinctAt(s.tabs, s.active, p);
    hide SoundLists, EnforcePinnedOrdering, PinnedFirst;
  }

  /**
   A dragged tab lands in the slot nearest to where it was dropped among those of its own band; the
   others keep their order.
  */
  lemma DragLands(s: Strip, from: nat, to: nat)
    requires Sound(s) && from < |s.tabs|
    ensures var n := PinnedCount(s.tabs);
            var dst := if from == to then from
                       else if s.tabs[from].pinned then Min(to, n - 1)
                       else Min(Max(to, n), |s.tabs| - 1);
            var r := MoveTab(s, from, to).tabs;
            && |r| == |s.tabs| && 0 <= dst < |r| && r[dst] == s.tabs[from]
            && RemoveAt(r, dst) == RemoveAt(s.tabs, from)
  {
    PinCounts(s.tabs);
    if from != to {
      var dst := Landing(s.tabs, from, to);
      MovedAt(s.tabs, from, dst);
      InsertThenRemove(RemoveAt(s.tabs, from), dst, s.tabs[from]);
    }
    hide SoundLists, WithPin, InsertAt, RemoveAt;
  }

  lemma InsertThenRemove(s: seq<Tab>, i: nat, t: Tab)
    requires i <= |s|
    ensures RemoveAt(InsertAt(s, i, t), i) == s
  {
  }

  // ---- the application --------------------------------------------------------------------------

  /** `armed`: the pinned tab whose close awaits confirmation. `ids`: the strip as last drawn, slot by slot. */
  datatype App = App(strip: Strip, armed: Option<TabId>, ids: seq<TabId>)

  /** What else happens to the list. */
  datatype Op =
    | OpOpen(url: Url) | OpOpenBackground(url: Url) | OpOpenAt(at: nat, url: Url)
    | OpReopen | OpMove(src: nat, dst: nat) | OpTogglePin | OpSetPinned(id: TabId, pinned: bool)
    | OpSelect(id: TabId) | OpCycle(forward: bool)

  datatype Event =
    | CloseActive
    | MenuClose(id: TabId) | MenuCloseOthers(id: TabId) | MenuCloseToRight(id: TabId)
    | MenuPin(id: TabId) | MenuDuplicate(id: TabId)
    | MiddleClick(slot: nat)
    | Resolve(confirm: bool)
    | RefreshStrip
    | Other(op: Op)

  function Ids(tabs: seq<Tab>): seq<TabId> {
    seq(|tabs|, i requires 0 <= i < |tabs| => tabs[i].id)
  }

  /** A confirmation already up is left as it is. */
  function Arm(a: App, id: TabId): App {
    if a.armed.None? then a.(armed := Some(id)) else a
  }

  function Refresh(a: App): App {
    a.(ids := Ids(a.strip.tabs))
  }

  function CloseAll(s: Strip, victims: seq<TabId>): Strip
    decreases |victims|
  {
    if victims == [] then s else CloseAll(CloseTab(s, victims[0]), victims[1..])
  }

  /** The unpinned tabs other than `keep`. */
  function OtherIds(tabs: seq<Tab>, keep: TabId): seq<TabId> {
    if tabs == [] then []
    else if tabs[0].id != keep && !tabs[0].pinned then [tabs[0].id] + OtherIds(tabs[1..], keep)
    else OtherIds(tabs[1..], keep)
  }

  function UnpinnedIds(tabs: seq<Tab>): seq<TabId> {
    if tabs == [] then []
    else if tabs[0].pinned then UnpinnedIds(tabs[1..])
    else [tabs[0].id] + UnpinnedIds(tabs[1..])
  }

  function Act(s: Strip, op: Op): Strip {
    match op
    case OpOpen(url) => Open(s, url)
    case OpOpenBackground(url) => OpenBackground(s, url)
    case OpOpenAt(at, url) => OpenAt(s, at, url)
    case OpReopen => ReopenClosed(s)
    case OpMove(src, dst) => MoveTab(s, src, dst)
    case OpTogglePin => TogglePinActive(s)
    case OpSetPinned(id, pinned) => SetPinned(s, id, pinned)
    case OpSelect(id) => SelectTab(s, id)
    case OpCycle(forward) => CycleTab(s, forward)
  }

  /** `close_active_tab_or_exit`. */
  function StepCloseActive(a: App): App {
    var s := a.strip;
    if s.active.None? || s.active.value >= |s.tabs| then a
    else if s.tabs[s.active.value].pinned then Arm(a, s.tabs[s.active.value].id)
    else a.(strip := CloseIndex(s, s.active.value))
  }

  /** The tab arms of the context menu, on the tab's current slot. */
  function StepMenuClose(a: App, id: TabId): App {
    var p := Position(a.strip.tabs, id);
    if p.None? then a
    else if a.strip.tabs[p.value].pinned then Arm(a, id)
    else Refresh(a.(strip := CloseTab(a.strip, id)))
  }

  function StepMenuCloseOthers(a: App, id: TabId): App {
    if Position(a.strip.tabs, id).None? then a
    else Refresh(a.(strip := SelectTab(CloseAll(a.strip, OtherIds(a.strip.tabs, id)), id)))
  }

  function StepMenuCloseToRight(a: App, id: TabId): App {
    var p := Position(a.strip.tabs, id);
    if p.None? then a
    else Refresh(a.(strip := CloseAll(a.strip, UnpinnedIds(a.strip.tabs[p.value + 1..]))))
  }

  function StepMenuPin(a: App, id: TabId): App {
    var p := Position(a.strip.tabs, id);
    if p.None? then a else Refresh(a.(strip := SetPinned(a.strip, id, !a.strip.tabs[p.value].pinned)))
  }

  function StepMenuDuplicate(a: App, id: TabId): App {
    var p := Position(a.strip.tabs, id);
    if p.None? || a.strip.tabs[p.value].url.Empty? then a
    else Refresh(a.(strip := OpenAt(a.strip, p.value + 1, a.strip.tabs[p.value].url)))
  }

  /** Middle click: the id comes from the strip as drawn, the pin from the same slot of the list as it is. */
  function StepMiddleClick(a: App, slot: nat): App {
    if slot >= |a.ids| then a
    else if slot < |a.strip.tabs| && a.strip.tabs[slot].pinned then Arm(a, a.ids[slot])
    else Refresh(a.(strip := CloseTab(a.strip, a.ids[slot])))
  }

  /** `resolve_pinned_close`. */
  function StepResolve(a: App, confirm: bool): App {
    if a.armed.None? then a
    else if !confirm then a.(armed := None)
    else Refresh(a.(armed := None, strip := CloseTab(a.strip, a.armed.value)))
  }

  function Step(a: App, e: Event): App {
    match e
    case CloseActive => StepCloseActive(a)
    case MenuClose(id) => StepMenuClose(a, id)
    case MenuCloseOthers(id) => StepMenuCloseOthers(a, id)
    case MenuCloseToRight(id) => StepMenuCloseToRight(a, id)
    case MenuPin(id) => StepMenuPin(a, id)
    case MenuDuplicate(id) => StepMenuDuplicate(a, id)
    case MiddleClick(slot) => StepMiddleClick(a, slot)
    case Resolve(confirm) => StepResolve(a, confirm)
    case RefreshStrip => Refresh(a)
    case Other(op) => a.(strip := Act(a.strip, op))
  }

  // ---- bulk closing is a filter -----------------------------------------------------------------

  function Without(tabs: seq<Tab>, victims: seq<TabId>): (r: seq<Tab>)
    ensures forall t :: t in r <==> t in tabs && t.id !in victims
  {
    if tabs == [] then []
    else
      assert forall t :: t in tabs <==> t == tabs[0] || t in tabs[1..];
      if tabs[0].id in victims then Without(tabs[1..], victims) else [tabs[0]] + Without(tabs[1..], victims)
  }

  lemma {:induction false} WithoutNone(tabs: seq<Tab>, victims: seq<TabId>)
    requires forall t :: t in tabs ==> t.id !in victims
    ensures Without(tabs, victims) == tabs
  {
    if tabs != [] {
      WithoutNone(tabs[1..], victims);
    }
  }

  lemma {:induction false} WithoutTwice(tabs: seq<Tab>, victims: seq<TabId>)
    requires victims != []
    ensures Without(Without(tabs, [victims[0]]), victims[1..]) == Without(tabs, victims)
  {
    if tabs != [] {
      WithoutTwice(tabs[1..], victims);
      assert tabs[0].id in victims <==> tabs[0].id == victims[0] || tabs[0].id in victims[1..];
      var rest := Without(tabs[1..], [victims[0]]);
      assert ([tabs[0]] + rest)[1..] == rest;
    }
  }

  lemma {:induction false} WithoutConcat(a: seq<Tab>, b: seq<Tab>, victims: seq<TabId>)
    ensures Without(a + b, victims) == Without(a, victims) + Without(b, victims)
  {
    if a == [] {
      assert a + b == b;
    } else {
      assert (a + b)[1..] == a[1..] + b;
      WithoutConcat(a[1..], b, victims);
    }
  }

  lemma WithoutIsRemoveAt(tabs: seq<Tab>, i: nat)
    requires Distinct(tabs) && i < |tabs|
    ensures Without(tabs, [tabs[i].id]) == RemoveAt(tabs, i)
  {
    var front, back := tabs[..i], tabs[i..];
    var victims := [tabs[i].id];
    assert tabs == front + back && back[1..] == tabs[i + 1..];
    WithoutConcat(front, back, victims);
    WithoutNone(front, victims);
    WithoutNone(back[1..], victims);
  }

  lemma CloseTabKeeps(s: Strip, id: TabId)
    requires Sound(s)
    ensures var r := CloseTab(s, id);
            && Sound(r) && r.tabs == Without(s.tabs, [id]) && (Foreground(s) ==> Foreground(r))
  {
    var p := Position(s.tabs, id);
    if p.Some? {
      CloseSound(s, p.value);
      if Foreground(s) { CloseKeeps(s, p.value); }
      WithoutIsRemoveAt(s.tabs, p.value);
    } else {
      WithoutNone(s.tabs, [id]);
    }
  }

  lemma {:induction false} CloseAllKeeps(s: Strip, victims: seq<TabId>)
    requires Sound(s)
    ensures var r := CloseAll(s, victims);
            Sound(r) && r.tabs == Without(s.tabs, victims) && (Foreground(s) ==> Foreground(r))
    decreases |victims|
  {
    if victims == [] {
      WithoutNone(s.tabs, []);
    } else {
      CloseTabKeeps(s, victims[0]);
      CloseAllKeeps(CloseTab(s, victims[0]), victims[1..]);
      WithoutTwice(s.tabs, victims);
    }
  }

  /** What close-others leaves: the clicked tab and the pinned ones, in order. */
  function KeptByOthers(tabs: seq<Tab>, keep: TabId): seq<Tab> {
    if tabs == [] then []
    else if tabs[0].id == keep || tabs[0].pinned then [tabs[0]] + KeptByOthers(tabs[1..], keep)
    else KeptByOthers(tabs[1..], keep)
  }

  lemma {:induction false} OtherIdsAre(tabs: seq<Tab>, keep: TabId, id: TabId)
    ensures id in OtherIds(tabs, keep) <==> exists t :: t in tabs && t.id == id && id != keep && !t.pinned
  {
    if tabs != [] {
      OtherIdsAre(tabs[1..], keep, id);
      assert forall t :: t in tabs <==> t == tabs[0] || t in tabs[1..];
    }
  }

  lemma SameTab(tabs: seq<Tab>, x: Tab, y: Tab)
    requires Distinct(tabs) && x in tabs && y in tabs && x.id == y.id
    ensures x == y
  {
    var i :| 0 <= i < |tabs| && tabs[i] == x;
    var j :| 0 <= j < |tabs| && tabs[j] == y;
  }

  lemma {:induction false} WithoutOthers(tabs: seq<Tab>, all: seq<Tab>, keep: TabId)
    requires Distinct(all) && forall t :: t in tabs ==> t in all
    ensures Without(tabs, OtherIds(all, keep)) == KeptByOthers(tabs, keep)
  {
    if tabs != [] {
      assert tabs[0] in tabs;
      WithoutOthers(tabs[1..], all, keep);
      OtherIdsAre(all, keep, tabs[0].id);
      if t :| t in all && t.id == tabs[0].id && t.id != keep && !t.pinned {
        SameTab(all, t, tabs[0]);
      }
    }
  }

  /**
   Close-others, on the tab clicked wherever it is now: everything unpinned but it goes, nothing else
   moves, and it has the focus.
  */
  lemma CloseOthersIsFilter(a: App, id: TabId)
    requires Sound(a.strip) && Has(a.strip.tabs, id)
    ensures var r := StepMenuCloseOthers(a, id);
            && r.strip.tabs == KeptByOthers(a.strip.tabs, id) && ActiveId(r.strip) == Some(id)
            && Sound(r.strip) && (Foreground(a.strip) ==> Foreground(r.strip))
            && r.armed == a.armed && r.ids == Ids(r.strip.tabs)
  {
    var s := a.strip;
    CloseAllKeeps(s, OtherIds(s.tabs, id));
    WithoutOthers(s.tabs, s.tabs, id);
    OtherIdsAre(s.tabs, id, id);
    var u := CloseAll(s, OtherIds(s.tabs, id));
    var k := Position(s.tabs, id).value;
    assert s.tabs[k] in u.tabs;
    var q := Position(u.tabs, id).value;
    DistinctAt(u.tabs, u.active, q);
    if Foreground(u) { SetActiveShowsOne(u, q); }
  }

  lemma {:induction false} WithoutUnpinned(tabs: seq<Tab>, victims: seq<TabId>)
    requires forall t :: t in tabs ==> (t.id in victims <==> !t.pinned)
    ensures Without(tabs, victims) == WithPin(tabs, true)
  {
    if tabs != [] {
      WithoutUnpinned(tabs[1..], victims);
    }
  }

  lemma {:induction false} UnpinnedIdsAre(tabs: seq<Tab>, id: TabId)
    ensures id in UnpinnedIds(tabs) <==> exists t :: t in tabs && t.id == id && !t.pinned
  {
    if tabs != [] {
      UnpinnedIdsAre(tabs[1..], id);
      assert forall t :: t in tabs <==> t == tabs[0] || t in tabs[1..];
    }
  }

  lemma WithoutRight(front: seq<Tab>, back: seq<Tab>)
    requires Distinct(front + back)
    ensures Without(front + back, UnpinnedIds(back)) == front + WithPin(back, true)
  {
    var tabs := front + back;
    var victims := UnpinnedIds(back);
    forall t | t in tabs ensures t.id in victims <==> t in back && !t.pinned {
      UnpinnedIdsAre(back, t.id);
      if x :| x in back && x.id == t.id && !x.pinned {
        assert x in tabs;
        SameTab(tabs, x, t);
      }
    }
    forall t | t in front ensures t !in back {
      var i :| 0 <= i < |front| && front[i] == t;
      assert tabs[i] == t;
      assert forall j :: 0 <= j < |back| ==> tabs[|front| + j] == back[j];
    }
    WithoutConcat(front, back, victims);
    WithoutNone(front, victims);
    WithoutUnpinned(back, victims);
  }

  /** What close-to-the-right leaves: the tabs up to the clicked one and the pinned ones behind it, in order. */
  function KeptByRight(tabs: seq<Tab>, id: TabId): seq<Tab> {
    var p := Position(tabs, id);
    if p.None? then tabs else tabs[..p.value + 1] + WithPin(tabs[p.value + 1..], true)
  }

  lemma RightVictims(tabs: seq<Tab>, k: nat)
    requires k < |tabs| && Distinct(tabs)
    ensures Without(tabs, UnpinnedIds(tabs[k + 1..])) == tabs[..k + 1] + WithPin(tabs[k + 1..], true)
  {
    assert tabs[..k + 1] + tabs[k + 1..] == tabs;
    WithoutRight(tabs[..k + 1], tabs[k + 1..]);
  }

  lemma CloseToRightIsFilter(a: App, id: TabId)
    requires Sound(a.strip) && Has(a.strip.tabs, id)
    ensures var r := StepMenuCloseToRight(a, id);
            && r.strip.tabs == KeptByRight(a.strip.tabs, id)
            && Sound(r.strip) && (Foreground(a.strip) ==> Foreground(r.strip))
            && r.armed == a.armed && r.ids == Ids(r.strip.tabs)
  {
    hide Sound, SoundLists, Foreground, CloseAll, WithPin, UnpinnedIds, Ids;
    HasIff(a.strip.tabs, id);
    hide Has;
    CloseRightKeeps(a.strip, Position(a.strip.tabs, id).value);
  }

  lemma CloseRightKeeps(s: Strip, k: nat)
    requires Sound(s) && k < |s.tabs|
    ensures var r := CloseAll(s, UnpinnedIds(s.tabs[k + 1..]));
            && r.tabs == s.tabs[..k + 1] + WithPin(s.tabs[k + 1..], true)
            && Sound(r) && (Foreground(s) ==> Foreground(r))
  {
    RightVictims(s.tabs, k);
    hide Sound, Foreground, CloseAll, Without, WithPin, UnpinnedIds;
    CloseAllKeeps(s, UnpinnedIds(s.tabs[k + 1..]));
  }

  // ---- whole runs -------------------------------------------------------------------------------

  function Run(a: App, events: seq<Event>): App
    decreases |events|
  {
    if events == [] then a else Run(Step(a, events[0]), events[1..])
  }

  /** Reopening into a slot at or before the active one. */
  predicate ReopenLeaks(s: Strip) {
    s.closed != [] && s.active.Some? && Min(s.closed[|s.closed| - 1].index, |s.tabs|) <= s.active.value
  }

  lemma SelectKeeps(s: Strip, i: nat)
    requires Sound(s) && i < |s.tabs|
    ensures var r := SetActive(s, i); Sound(r) && r.tabs == s.tabs && (Foreground(s) ==> Foreground(r))
  {
    DistinctAt(s.tabs, s.active, i);
    if Foreground(s) { SetActiveShowsOne(s, i); }
  }

  lemma RepinKeeps(s: Strip, p: nat, pinned: bool)
    requires Sound(s) && p < |s.tabs|
    ensures var t := s.tabs[p].(pinned := pinned);
            var r := EnforcePinnedOrdering(s.(tabs := s.tabs[p := t]));
            && Sound(r) && (Foreground(s) ==> Foreground(r))
            && forall x :: x in r.tabs <==> x == t || (x in s.tabs && x.id != t.id)
  {
    RepinKeepsSound(s, p, pinned);
    var t := s.tabs[p].(pinned := pinned);
    var u := s.(tabs := s.tabs[p := t]);
    EnforceKeeps(u);
    forall x ensures x in u.tabs <==> x == t || (x in s.tabs && x.id != t.id) {
      if x in u.tabs {
        var k :| 0 <= k < |u.tabs| && u.tabs[k] == x;
      }
      if x in s.tabs && x.id != t.id {
        var k :| 0 <= k < |s.tabs| && s.tabs[k] == x;
        assert u.tabs[k] == x;
      }
      assert u.tabs[p] == t;
    }
  }

  lemma SetPinnedKeeps(s: Strip, id: TabId, pinned: bool)
    requires Sound(s)
    ensures var r := SetPinned(s, id, pinned); Sound(r) && (Foreground(s) ==> Foreground(r))
  {
    var p := Position(s.tabs, id);
    if p.Some? { RepinKeeps(s, p.value, pinned); } else { EnforceKeeps(s); }
  }

  lemma MoveShows(s: Strip, from: nat, to: nat)
    requires Sound(s)
    ensures var r := MoveTab(s, from, to); Sound(r) && (Foreground(s) ==> Foreground(r))
  {
    hide MoveTab, SoundLists;
    MoveKeeps(s, from, to);
  }

  lemma ReopenShows(s: Strip)
    requires Sound(s)
    ensures var r := ReopenClosed(s); Sound(r) && (Foreground(s) && !ReopenLeaks(s) ==> Foreground(r))
  {
    if s.closed != [] {
      ReopenRestores(s);
      if Foreground(s) { ReopenForegroundIff(s); }
      hide ReopenClosed, Sound, SoundLists, Foreground, PinnedFirst;
    }
  }

  lemma ActKeeps(s: Strip, op: Op)
    requires Sound(s)
    ensures var r := Act(s, op);
            Sound(r) && (Foreground(s) && !(op.OpReopen? && ReopenLeaks(s)) ==> Foreground(r))
  {
    hide SoundLists, Foreground, SetActive, Open, OpenBackground, OpenAt, ReopenClosed, MoveTab, SetPinned,
      EnforcePinnedOrdering, ReopenLeaks;
    match op
    case OpOpen(url) => OpenKeeps(s, url);
    case OpOpenBackground(url) => OpenBackgroundKeeps(s, url);
    case OpOpenAt(at, url) => OpenAtKeeps(s, at, url);
    case OpReopen => ReopenShows(s);
    case OpMove(src, dst) => MoveShows(s, src, dst);
    case OpTogglePin =>
      if s.active.Some? { RepinKeeps(s, s.active.value, !s.tabs[s.active.value].pinned); }
    case OpSetPinned(id, pinned) => SetPinnedKeeps(s, id, pinned);
    case OpSelect(id) =>
      var p := Position(s.tabs, id);
      if p.Some? { SelectKeeps(s, p.value); }
    case OpCycle(forward) =>
      if |s.tabs| > 1 {
        var cur := if s.active.Some? then s.active.value else 0;
        CycleInside(cur, |s.tabs|, forward);
        SelectKeeps(s, CycleIndex(cur, |s.tabs|, forward));
      }
  }

  /** `t` is as sound as `s` was, and shows one tab if `s` did. */
  predicate KeptFrom(s: Strip, t: Strip) {
    Sound(t) && (Foreground(s) ==> Foreground(t))
  }

  lemma CloseActiveKeeps(a: App)
    requires Sound(a.strip)
    ensures KeptFrom(a.strip, StepCloseActive(a).strip)
  {
    var s := a.strip;
    if s.active.Some? {
      CloseSound(s, s.active.value);
      if Foreground(s) { CloseKeeps(s, s.active.value); }
    }
    hide Sound, Foreground, CloseIndex;
  }

  lemma MenuTabKeeps(a: App, id: TabId)
    requires Sound(a.strip)
    ensures KeptFrom(a.strip, StepMenuClose(a, id).strip)
    ensures KeptFrom(a.strip, StepMenuPin(a, id).strip)
    ensures KeptFrom(a.strip, StepMenuDuplicate(a, id).strip)
  {
    hide Sound, Foreground, CloseTab, SetPinned, OpenAt;
    CloseTabKeeps(a.strip, id);
    var p := Position(a.strip.tabs, id);
    if p.Some? {
      SetPinnedKeeps(a.strip, id, !a.strip.tabs[p.value].pinned);
      OpenAtKeeps(a.strip, p.value + 1, a.strip.tabs[p.value].url);
    }
  }

  lemma MenuBulkKeeps(a: App, id: TabId)
    requires Sound(a.strip)
    ensures KeptFrom(a.strip, StepMenuCloseOthers(a, id).strip)
    ensures KeptFrom(a.strip, StepMenuCloseToRight(a, id).strip)
  {
    if Position(a.strip.tabs, id).Some? {
      hide Sound, Foreground, CloseAll;
      CloseOthersIsFilter(a, id);
      CloseToRightIsFilter(a, id);
    }
  }

  lemma StepKeeps(a: App, e: Event)
    requires Sound(a.strip)
    ensures Sound(Step(a, e).strip)
    ensures !(e == Other(OpReopen) && ReopenLeaks(a.strip)) ==> KeptFrom(a.strip, Step(a, e).strip)
  {
    hide Sound, Foreground, Act, CloseTab, StepCloseActive, StepMenuClose, StepMenuPin, StepMenuDuplicate,
      StepMenuCloseOthers, StepMenuCloseToRight, ReopenLeaks;
    match e
    case CloseActive => CloseActiveKeeps(a);
    case MenuClose(id) => MenuTabKeeps(a, id);
    case MenuCloseOthers(id) => MenuBulkKeeps(a, id);
    case MenuCloseToRight(id) => MenuBulkKeeps(a, id);
    case MenuPin(id) => MenuTabKeeps(a, id);
    case MenuDuplicate(id) => MenuTabKeeps(a, id);
    case MiddleClick(slot) => if slot < |a.ids| { CloseTabKeeps(a.strip, a.ids[slot]); }
    case Resolve(confirm) => if a.armed.Some? { CloseTabKeeps(a.strip, a.armed.value); }
    case RefreshStrip =>
    case Other(op) => ActKeeps(a.strip, op);
  }

  predicate NoLeakyReopen(a: App, events: seq<Event>)
    decreases |events|
  {
    events == []
    || (!(events[0] == Other(OpReopen) && ReopenLeaks(a.strip)) && NoLeakyReopen(Step(a, events[0]), events[1..]))
  }

  /**
   In every reachable state ids are unique and the active slot exists; and exactly the active tab is
   in the foreground unless a reopen has leaked one.
  */
  lemma {:induction false} RunKeeps(a: App, events: seq<Event>)
    requires Sound(a.strip)
    ensures Sound(Run(a, events).strip)
    ensures Foreground(a.strip) && NoLeakyReopen(a, events) ==> Foreground(Run(a, events).strip)
    decreases |events|
  {
    if events != [] {
      StepKeeps(a, events[0]);
      assert KeptFrom(a.strip, Step(a, events[0]).strip) || (events[0] == Other(OpReopen) && ReopenLeaks(a.strip));
      hide Step, Sound, Foreground, ReopenLeaks;
      RunKeeps(Step(a, events[0]), events[1..]);
    }
  }

  // ---- pinned tabs survive ----------------------------------------------------------------------

  predicate Pinned(s: Strip, id: TabId) {
    exists t :: t in s.tabs && t.id == id && t.pinned
  }

  /** The user confirmed closing exactly this tab, or middle-clicked it while its slot showed something unpinned. */
  predicate Lets(a: App, e: Event, id: TabId) {
    || (e == Resolve(true) && a.armed == Some(id))
    || (e.MiddleClick? && e.slot < |a.ids| && a.ids[e.slot] == id
        && !(e.slot < |a.strip.tabs| && a.strip.tabs[e.slot].pinned))
  }

  predicate Unpins(a: App, e: Event, id: TabId) {
    || e == MenuPin(id)
    || e == Other(OpSetPinned(id, false))
    || (e == Other(OpTogglePin) && ActiveId(a.strip) == Some(id))
  }

  lemma CloseSparesOthers(s: Strip, id: TabId, t: Tab)
    requires Sound(s) && t in s.tabs
    ensures t in CloseTab(s, id).tabs <==> t.id != id
    ensures t.id == id ==> !Has(CloseTab(s, id).tabs, id)
  {
    CloseTabKeeps(s, id);
    var r := CloseTab(s, id);
    assert forall i :: 0 <= i < |r.tabs| ==> r.tabs[i] in r.tabs;
  }

  lemma OthersSparePinned(s: Strip, id: TabId, t: Tab)
    requires Sound(s) && t in s.tabs && t.pinned
    ensures t in CloseAll(s, OtherIds(s.tabs, id)).tabs
  {
    CloseAllKeeps(s, OtherIds(s.tabs, id));
    OtherIdsAre(s.tabs, id, t.id);
    if u :| u in s.tabs && u.id == t.id && u.id != id && !u.pinned {
      SameTab(s.tabs, t, u);
    }
  }

  lemma RightSparesPinned(s: Strip, k: nat, t: Tab)
    requires Sound(s) && k < |s.tabs| && t in s.tabs && t.pinned
    ensures t in CloseAll(s, UnpinnedIds(s.tabs[k + 1..])).tabs
  {
    var back := s.tabs[k + 1..];
    CloseAllKeeps(s, UnpinnedIds(back));
    UnpinnedIdsAre(back, t.id);
    if u :| u in back && u.id == t.id && !u.pinned {
      assert u in s.tabs;
      SameTab(s.tabs, t, u);
    }
  }

  lemma RepinSpares(s: Strip, op: Op, t: Tab)
    requires Sound(s) && t in s.tabs && t.pinned && (op.OpTogglePin? || op.OpSetPinned?)
    ensures var r := Act(s, op);
            if op == OpSetPinned(t.id, false) || (op == OpTogglePin && ActiveId(s) == Some(t.id))
            then t.(pinned := false) in r.tabs else t in r.tabs
  {
    hide Open, OpenBackground, OpenAt, ReopenClosed, MoveTab, SelectTab, CycleTab, Foreground, EnforcePinnedOrdering;
    var p := if op.OpTogglePin? then s.active else Position(s.tabs, op.id);
    if p.Some? {
      var u := s.tabs[p.value];
      if u.id == t.id { SameTab(s.tabs, u, t); }
      RepinKeeps(s, p.value, if op.OpTogglePin? then !u.pinned else op.pinned);
    } else {
      EnforceKeeps(s);
    }
    hide SoundLists;
  }

  /** A pinned tab through any operation of the engine but a close. */
  lemma ActSparesPinned(s: Strip, op: Op, t: Tab)
    requires Sound(s) && t in s.tabs && t.pinned
    ensures var r := Act(s, op);
            && (t in r.tabs || t.(pinned := false) in r.tabs)
            && (op != OpSetPinned(t.id, false) && !(op == OpTogglePin && ActiveId(s) == Some(t.id)) ==> t in r.tabs)
  {
    match op
    case OpOpen(url) =>
    case OpOpenBackground(url) =>
    case OpOpenAt(at, url) => NextIdUnused(s); InsertAtDistinct(s.tabs, Min(at, |s.tabs|), Tab(s.nextId, false, url));
    case OpReopen => if s.closed != [] { ReopenRestores(s); }
    case OpMove(src, dst) => MoveKeeps(s, src, dst);
    case OpTogglePin => RepinSpares(s, op, t);
    case OpSetPinned(id, pinned) => RepinSpares(s, op, t);
    case OpSelect(id) =>
    case OpCycle(forward) =>
    hide Sound, EnforcePinnedOrdering, SetPinned, TogglePinActive, MoveTab, ReopenClosed;
  }

  lemma CloseActiveSparesPinned(a: App, t: Tab)
    requires Sound(a.strip) && t in a.strip.tabs && t.pinned
    ensures t in StepCloseActive(a).strip.tabs
  {
    var s := a.strip;
    if s.active.Some? && !s.tabs[s.active.value].pinned {
      CloseSound(s, s.active.value);
      RemoveAtDistinct(s.tabs, s.active.value);
    }
    hide CloseIndex, SoundLists, RemoveAt;
  }

  lemma MenuSparesPinned(a: App, id: TabId, t: Tab)
    requires Sound(a.strip) && t in a.strip.tabs && t.pinned
    ensures t in StepMenuClose(a, id).strip.tabs && t in StepMenuDuplicate(a, id).strip.tabs
    ensures t in StepMenuCloseOthers(a, id).strip.tabs && t in StepMenuCloseToRight(a, id).strip.tabs
  {
    var p := Position(a.strip.tabs, id);
    if p.Some? {
      var u := a.strip.tabs[p.value];
      if u.id == t.id { SameTab(a.strip.tabs, u, t); }
      hide Sound, CloseTab, CloseAll, OpenAt;
      CloseSparesOthers(a.strip, id, t);
      ActSparesPinned(a.strip, OpOpenAt(p.value + 1, u.url), t);
      OthersSparePinned(a.strip, id, t);
      RightSparesPinned(a.strip, p.value, t);
    }
  }

  lemma MenuPinSparesOthers(a: App, id: TabId, t: Tab)
    requires Sound(a.strip) && t in a.strip.tabs && t.pinned
    ensures var r := StepMenuPin(a, id).strip.tabs; if t.id == id then t.(pinned := false) in r else t in r
  {
    var p := Position(a.strip.tabs, id);
    if p.Some? {
      var u := a.strip.tabs[p.value];
      if u.id == t.id { SameTab(a.strip.tabs, u, t); }
      RepinKeeps(a.strip, p.value, !u.pinned);
      hide Sound, EnforcePinnedOrdering;
    }
  }

  lemma MiddleClickLets(a: App, slot: nat, t: Tab)
    requires Sound(a.strip) && t in a.strip.tabs && t.pinned
    ensures var r := StepMiddleClick(a, slot).strip.tabs;
            if Lets(a, MiddleClick(slot), t.id) then !Has(r, t.id) else t in r
  {
    if slot < |a.ids| {
      CloseSparesOthers(a.strip, a.ids[slot], t);
      hide Sound, CloseTab, Has;
    }
  }

  /** One step on a pinned tab: gone exactly when let, and otherwise pinned still unless the step unpins it. */
  lemma StepOnPinned(a: App, e: Event, t: Tab)
    requires Sound(a.strip) && t in a.strip.tabs && t.pinned
    ensures var r := Step(a, e).strip.tabs;
            if Lets(a, e, t.id) then !Has(r, t.id)
            else if Unpins(a, e, t.id) then t in r || t.(pinned := false) in r
            else t in r
  {
    hide Sound, Has, Act, CloseTab, StepCloseActive, StepMenuClose, StepMenuPin, StepMenuDuplicate,
      StepMenuCloseOthers, StepMenuCloseToRight, StepMiddleClick;
    match e
    case CloseActive => CloseActiveSparesPinned(a, t);
    case MenuClose(id) => MenuSparesPinned(a, id, t);
    case MenuCloseOthers(id) => MenuSparesPinned(a, id, t);
    case MenuCloseToRight(id) => MenuSparesPinned(a, id, t);
    case MenuPin(id) => MenuPinSparesOthers(a, id, t);
    case MenuDuplicate(id) => MenuSparesPinned(a, id, t);
    case MiddleClick(slot) => MiddleClickLets(a, slot, t);
    case Resolve(confirm) => if a.armed.Some? { CloseSparesOthers(a.strip, a.armed.value, t); }
    case RefreshStrip =>
    case Other(op) => ActSparesPinned(a.strip, op, t);
  }

  /** What a step may ask about: the tab it would otherwise have closed. */
  predicate Asks(a: App, e: Event, id: TabId) {
    match e
    case CloseActive => ActiveId(a.strip) == Some(id) && Pinned(a.strip, id)
    case MenuClose(t) => t == id && Pinned(a.strip, id)
    case MiddleClick(slot) => slot < |a.ids| && a.ids[slot] == id
    case _ => false
  }

  /** A confirmation, once up, stays up for its tab until it is answered; and only closing that tab puts one up. */
  lemma ConfirmationIsKept(a: App, e: Event)
    requires Sound(a.strip)
    ensures var r := Step(a, e);
            && (a.armed.Some? && !e.Resolve? ==> r.armed == a.armed)
            && (e.Resolve? ==> r.armed.None?)
            && (a.armed.None? && r.armed.Some? ==> Asks(a, e, r.armed.value))
  {
    hide SoundLists, Act, CloseIndex, CloseTab, CloseAll, SelectTab, SetPinned, OpenAt;
    var s := a.strip;
    if e.CloseActive? && s.active.Some? {
      assert s.tabs[s.active.value] in s.tabs;
    } else if e.MenuClose? && Position(s.tabs, e.id).Some? {
      assert s.tabs[Position(s.tabs, e.id).value] in s.tabs;
    }
  }

  /**
   Closing a pinned tab asks, and nothing else does: with no confirmation up, one is put up exactly for
   the tab that the keyboard, the menu or a middle click on a pinned slot would have closed.
  */
  lemma AsksIff(a: App, e: Event, id: TabId)
    requires Sound(a.strip) && a.armed.None?
    ensures Step(a, e).armed == Some(id) <==>
              || (e == CloseActive && ActiveId(a.strip) == Some(id) && Pinned(a.strip, id))
              || (e == MenuClose(id) && Pinned(a.strip, id))
              || (e.MiddleClick? && e.slot < |a.ids| && a.ids[e.slot] == id
                  && e.slot < |a.strip.tabs| && a.strip.tabs[e.slot].pinned)
  {
    hide Act, CloseIndex, CloseTab, CloseAll, SelectTab, SetPinned, OpenAt;
    var s := a.strip;
    if Pinned(s, id) {
      var t :| t in s.tabs && t.id == id && t.pinned;
      if e.CloseActive? && ActiveId(s) == Some(id) {
        SameTab(s.tabs, s.tabs[s.active.value], t);
      } else if e == MenuClose(id) {
        assert Position(s.tabs, id).Some?;
        SameTab(s.tabs, s.tabs[Position(s.tabs, id).value], t);
      }
    }
    if e.CloseActive? && s.active.Some? { assert s.tabs[s.active.value] in s.tabs; }
    if e.MenuClose? && Position(s.tabs, e.id).Some? { assert s.tabs[Position(s.tabs, e.id).value] in s.tabs; }
  }

  /**
   A pinned tab is gone after a step if and only if the user confirmed closing that very tab, or a
   middle click met a stale slot.
  */
  lemma PinnedLeavesIff(a: App, e: Event, id: TabId)
    requires Sound(a.strip) && Pinned(a.strip, id)
    ensures Has(Step(a, e).strip.tabs, id) <==> !Lets(a, e, id)
  {
    var t :| t in a.strip.tabs && t.id == id && t.pinned;
    StepOnPinned(a, e, t);
    hide Sound, Step, Lets, Unpins;
    var r := Step(a, e).strip.tabs;
    if t in r {
      var i :| 0 <= i < |r| && r[i] == t;
    } else if t.(pinned := false) in r {
      var i :| 0 <= i < |r| && r[i] == t.(pinned := false);
    }
  }

  /**
   The closes that take an unpinned tab: its own, a bulk close that covers it, or a confirmation armed
   while it was pinned.
  */
  predicate Takes(a: App, e: Event, id: TabId) {
    match e
    case CloseActive => ActiveId(a.strip) == Some(id)
    case MenuClose(t) => t == id
    case MenuCloseOthers(keep) => keep != id && Has(a.strip.tabs, keep)
    case MenuCloseToRight(t) =>
      var p, q := Position(a.strip.tabs, t), Position(a.strip.tabs, id);
      p.Some? && q.Some? && p.value < q.value
    case MiddleClick(slot) =>
      && slot < |a.ids| && a.ids[slot] == id
      && !(slot < |a.strip.tabs| && a.strip.tabs[slot].pinned)
    case Resolve(confirm) => confirm && a.armed == Some(id)
    case _ => false
  }

  lemma HasIs(tabs: seq<Tab>, t: Tab)
    requires t in tabs
    ensures Has(tabs, t.id)
  {
    var i :| 0 <= i < |tabs| && tabs[i] == t;
  }

  lemma HasMember(tabs: seq<Tab>, id: TabId) returns (t: Tab)
    requires Has(tabs, id)
    ensures t in tabs && t.id == id
  {
    var i :| 0 <= i < |tabs| && tabs[i].id == id;
    t := tabs[i];
  }

  lemma CloseTakes(s: Strip, closed: TabId, t: Tab)
    requires Sound(s) && t in s.tabs
    ensures Has(CloseTab(s, closed).tabs, t.id) <==> t.id != closed
  {
    CloseSparesOthers(s, closed, t);
    if t.id != closed { HasIs(CloseTab(s, closed).tabs, t); }
  }

  lemma CloseActiveTakes(a: App, t: Tab)
    requires Sound(a.strip) && t in a.strip.tabs && !t.pinned
    ensures Has(StepCloseActive(a).strip.tabs, t.id) <==> !Takes(a, CloseActive, t.id)
  {
    var s := a.strip;
    HasIs(s.tabs, t);
    if s.active.Some? {
      var u := s.tabs[s.active.value];
      if u.id == t.id { SameTab(s.tabs, u, t); }
      if !u.pinned {
        CloseSound(s, s.active.value);
        WithoutIsRemoveAt(s.tabs, s.active.value);
        LeavesWithout(s.tabs, [u.id], t);
      }
    }
    hide CloseIndex, Has, Sound;
  }

  lemma LeavesWithout(tabs: seq<Tab>, victims: seq<TabId>, t: Tab)
    requires t in tabs
    ensures Has(Without(tabs, victims), t.id) <==> t.id !in victims
  {
    var r := Without(tabs, victims);
    if t.id !in victims {
      HasIs(r, t);
    } else {
      forall i | 0 <= i < |r| ensures r[i].id != t.id { assert r[i] in r; }
    }
  }

  lemma BulkTakes(a: App, id: TabId, t: Tab)
    requires Sound(a.strip) && t in a.strip.tabs && !t.pinned
    ensures Has(StepMenuCloseOthers(a, id).strip.tabs, t.id) <==> !Takes(a, MenuCloseOthers(id), t.id)
    ensures Has(StepMenuCloseToRight(a, id).strip.tabs, t.id) <==> !Takes(a, MenuCloseToRight(id), t.id)
  {
    hide CloseAll, OtherIds, UnpinnedIds, SoundLists, Has, SelectTab;
    var s := a.strip;
    HasIs(s.tabs, t);
    var p := Position(s.tabs, id);
    HasIff(s.tabs, id);
    HasIff(s.tabs, t.id);
    if p.Some? {
      OthersTakes(s, id, t);
      RightTakes(s, p.value, t);
      SelectKeepsTabs(CloseAll(s, OtherIds(s.tabs, id)), id);
    }
  }

  lemma SelectKeepsTabs(s: Strip, id: TabId)
    ensures SelectTab(s, id).tabs == s.tabs
  {
  }

  lemma HasIff(tabs: seq<Tab>, id: TabId)
    ensures Has(tabs, id) <==> Position(tabs, id).Some?
  {
  }

  lemma OthersTakes(s: Strip, keep: TabId, t: Tab)
    requires Sound(s) && t in s.tabs && !t.pinned
    ensures Has(CloseAll(s, OtherIds(s.tabs, keep)).tabs, t.id) <==> t.id == keep
  {
    CloseAllKeeps(s, OtherIds(s.tabs, keep));
    OtherIdsAre(s.tabs, keep, t.id);
    LeavesWithout(s.tabs, OtherIds(s.tabs, keep), t);
  }

  lemma PositionIs(tabs: seq<Tab>, i: nat)
    requires Distinct(tabs) && i < |tabs|
    ensures Position(tabs, tabs[i].id) == Some(i)
  {
  }

  lemma RightVictimIff(tabs: seq<Tab>, k: nat, i: nat)
    requires Distinct(tabs) && k < |tabs| && i < |tabs| && !tabs[i].pinned
    ensures tabs[i].id in UnpinnedIds(tabs[k + 1..]) <==> i > k
  {
    var back := tabs[k + 1..];
    UnpinnedIdsAre(back, tabs[i].id);
    if i > k {
      assert back[i - k - 1] == tabs[i];
    } else {
      assert forall j :: 0 <= j < |back| ==> back[j] == tabs[k + 1 + j] && back[j].id != tabs[i].id;
    }
  }

  lemma RightTakes(s: Strip, k: nat, t: Tab)
    requires Sound(s) && k < |s.tabs| && t in s.tabs && !t.pinned
    ensures Has(CloseAll(s, UnpinnedIds(s.tabs[k + 1..])).tabs, t.id)
            <==> Position(s.tabs, t.id).Some? && Position(s.tabs, t.id).value <= k
  {
    var i :| 0 <= i < |s.tabs| && s.tabs[i] == t;
    CloseAllKeeps(s, UnpinnedIds(s.tabs[k + 1..]));
    RightVictimIff(s.tabs, k, i);
    PositionIs(s.tabs, i);
    hide UnpinnedIds, Position, Has, Without, CloseAll;
    LeavesWithout(s.tabs, UnpinnedIds(s.tabs[k + 1..]), t);
  }

  lemma ActKeepsTab(s: Strip, op: Op, t: Tab)
    requires Sound(s) && t in s.tabs
    ensures Has(Act(s, op).tabs, t.id)
  {
    hide SoundLists, Has, EnforcePinnedOrdering, MoveTab, ReopenClosed, SelectTab, InsertAt;
    match op
    case OpOpen(url) => HasIs(Open(s, url).tabs, t);
    case OpOpenBackground(url) => HasIs(OpenBackground(s, url).tabs, t);
    case OpOpenAt(at, url) =>
      OpenedKeeps(s, at, url, t);
      HasIs(OpenAt(s, at, url).tabs, t);
    case OpReopen =>
      ReopenedKeeps(s, t);
      HasIs(ReopenClosed(s).tabs, t);
    case OpMove(src, dst) =>
      MoveKeeps(s, src, dst);
      HasIs(MoveTab(s, src, dst).tabs, t);
    case OpTogglePin => RepinKeepsTab(s, s.active, s.active.None? || !s.tabs[s.active.value].pinned, t);
    case OpSetPinned(id, pinned) => RepinKeepsTab(s, Position(s.tabs, id), pinned, t);
    case OpSelect(id) => HasIs(s.tabs, t); SelectKeepsTabs(s, id);
    case OpCycle(forward) => HasIs(s.tabs, t);
  }

  lemma ReopenedKeeps(s: Strip, t: Tab)
    requires Sound(s) && t in s.tabs
    ensures t in ReopenClosed(s).tabs
  {
    if s.closed != [] {
      hide ReopenClosed;
      ReopenRestores(s);
    }
  }

  lemma OpenedKeeps(s: Strip, at: nat, url: Url, t: Tab)
    requires Sound(s) && t in s.tabs
    ensures t in OpenAt(s, at, url).tabs
  {
    NextIdUnused(s);
    InsertAtDistinct(s.tabs, Min(at, |s.tabs|), Tab(s.nextId, false, url));
    hide InsertAt;
  }

  lemma RepinKeepsTab(s: Strip, p: Option<nat>, pinned: bool, t: Tab)
    requires Sound(s) && t in s.tabs && (p.Some? ==> p.value < |s.tabs|)
    ensures var u := if p.Some? then s.(tabs := s.tabs[p.value := s.tabs[p.value].(pinned := pinned)]) else s;
            Has(EnforcePinnedOrdering(u).tabs, t.id) && Has(s.tabs, t.id)
  {
    HasIs(s.tabs, t);
    if p.Some? {
      RepinnedTab(s, p.value, pinned, t);
      var u := s.tabs[p.value].(pinned := pinned);
      var r := EnforcePinnedOrdering(s.(tabs := s.tabs[p.value := u])).tabs;
      HasIs(r, if t in r then t else u);
    } else {
      EnforceKeeps(s);
      HasIs(EnforcePinnedOrdering(s).tabs, t);
    }
    hide Sound, Has, EnforcePinnedOrdering;
  }

  lemma RepinnedTab(s: Strip, p: nat, pinned: bool, t: Tab)
    requires Sound(s) && p < |s.tabs| && t in s.tabs
    ensures var u := s.tabs[p].(pinned := pinned);
            var r := EnforcePinnedOrdering(s.(tabs := s.tabs[p := u])).tabs;
            u in r && (t in r || u.id == t.id)
  {
    RepinKeeps(s, p, pinned);
  }

  /**
   And an unpinned tab is gone after a step exactly if one of the closes took it: those act on the tab
   they name wherever it is by then, and no opening, drag, pin, selection or redraw loses one.
  */
  lemma UnpinnedLeavesIff(a: App, e: Event, t: Tab)
    requires Sound(a.strip) && t in a.strip.tabs && !t.pinned
    ensures Has(Step(a, e).strip.tabs, t.id) <==> !Takes(a, e, t.id)
  {
    hide Sound, Has, Act, CloseTab, CloseAll, CloseIndex, SetPinned, OpenAt, StepCloseActive, StepMenuClose,
      StepMenuCloseOthers, StepMenuCloseToRight;
    var s := a.strip;
    HasIs(s.tabs, t);
    match e
    case CloseActive => CloseActiveTakes(a, t);
    case MenuClose(id) => MenuCloseTakes(a, id, t);
    case MenuCloseOthers(id) => BulkTakes(a, id, t);
    case MenuCloseToRight(id) => BulkTakes(a, id, t);
    case MenuPin(id) =>
      var p := Position(s.tabs, id);
      if p.Some? { SetPinnedKeepsTab(s, id, !s.tabs[p.value].pinned, t); }
    case MenuDuplicate(id) =>
      var p := Position(s.tabs, id);
      if p.Some? { OpenAtKeepsTab(s, p.value + 1, s.tabs[p.value].url, t); }
    case MiddleClick(slot) => if slot < |a.ids| { CloseTakes(s, a.ids[slot], t); }
    case Resolve(confirm) => if a.armed.Some? { CloseTakes(s, a.armed.value, t); }
    case RefreshStrip =>
    case Other(op) => ActKeepsTab(s, op, t);
  }

  lemma MenuCloseTakes(a: App, id: TabId, t: Tab)
    requires Sound(a.strip) && t in a.strip.tabs && !t.pinned
    ensures Has(StepMenuClose(a, id).strip.tabs, t.id) <==> t.id != id
  {
    var s := a.strip;
    HasIs(s.tabs, t);
    CloseTakes(s, id, t);
    var p := Position(s.tabs, id);
    if p.Some? && id == t.id { SameTab(s.tabs, s.tabs[p.value], t); }
    hide Sound, CloseTab, Has;
    HasIff(s.tabs, id);
  }

  lemma SetPinnedKeepsTab(s: Strip, id: TabId, pinned: bool, t: Tab)
    requires Sound(s) && t in s.tabs
    ensures Has(SetPinned(s, id, pinned).tabs, t.id)
  {
    ActKeepsTab(s, OpSetPinned(id, pinned), t);
  }

  lemma OpenAtKeepsTab(s: Strip, at: nat, url: Url, t: Tab)
    requires Sound(s) && t in s.tabs
    ensures Has(OpenAt(s, at, url).tabs, t.id)
  {
    ActKeepsTab(s, OpOpenAt(at, url), t);
  }

  /** The menu's pin flips the pin of the tab it names, its duplicate opens the same page right behind it. */
  lemma MenuEdits(a: App, id: TabId)
    requires Sound(a.strip) && Has(a.strip.tabs, id)
    ensures var s := a.strip;
            var p := Position(s.tabs, id).value;
            var t := s.tabs[p];
            && (forall x :: x in StepMenuPin(a, id).strip.tabs
                            <==> x == t.(pinned := !t.pinned) || (x in s.tabs && x.id != id))
            && StepMenuDuplicate(a, id).strip.tabs
               == (if t.url.Empty? then s.tabs
                   else s.tabs[..p + 1] + [Tab(s.nextId, false, t.url)] + s.tabs[p + 1..])
  {
    var p := Position(a.strip.tabs, id).value;
    PinChangesOne(a.strip, id, !a.strip.tabs[p].pinned);
    OpensAt(a.strip, p + 1, a.strip.tabs[p].url);
    hide Sound, SetPinned, OpenAt;
  }

  /**
   Every step of the menu, the mouse or the confirmation that changes the list leaves the strip drawn as
   the list is; the keyboard's close and the engine's own operations leave it as it was drawn.
  */
  lemma StripIsRedrawn(a: App, e: Event)
    ensures var r := Step(a, e);
            if e.CloseActive? || e.Other? then r.ids == a.ids
            else
              && (r.strip != a.strip ==> r.ids == Ids(r.strip.tabs))
              && (r.ids != a.ids ==> r.ids == Ids(r.strip.tabs))
              && (e.RefreshStrip? ==> r.ids == Ids(a.strip.tabs) && r.strip == a.strip)
  {
    hide CloseTab, CloseAll, SelectTab, SetPinned, OpenAt, Ids;
  }

  /** While the drawn strip is the list as it is, a middle click on a pinned tab asks first. */
  lemma SyncedMiddleClickAsks(a: App, slot: nat, id: TabId)
    requires Sound(a.strip) && Pinned(a.strip, id) && a.ids == Ids(a.strip.tabs)
    ensures !Lets(a, MiddleClick(slot), id)
  {
    var t :| t in a.strip.tabs && t.id == id && t.pinned;
    if slot < |a.ids| && a.ids[slot] == id {
      SameTab(a.strip.tabs, a.strip.tabs[slot], t);
    }
  }

  /**
   A stale one does not: duplicate the first of two pinned tabs, close the copy from the keyboard,
   and middle-click the other before the strip is redrawn. Its drawn slot is past the end of the
   list, which reads as unpinned, and it closes unasked.
  */
  lemma StaleMiddleClickClosesPinned()
    ensures var a := Drawn();
            var r := Run(a, [MenuDuplicate(1), CloseActive, MiddleClick(2)]);
            Sound(a.strip) && Foreground(a.strip) && Pinned(a.strip, 2) && !Has(r.strip.tabs, 2) && r.armed.None?
  {
    var a, c := Drawn(), Shortened();
    StaleRun();
    StaleStripsSound();
    assert a.strip.tabs[1] in a.strip.tabs && c.strip.tabs[1] in c.strip.tabs;
    MiddleClickLets(c, 2, Tab(2, true, Page));
  }

  function Drawn(): App {
    App(Strip([Tab(1, true, Page), Tab(2, true, Page)], Some(0), {1}, [], 3), None, [1, 2])
  }

  function Duplicated(): App {
    App(Strip([Tab(1, true, Page), Tab(3, false, Page), Tab(2, true, Page)], Some(1), {3}, [], 4), None, [1, 3, 2])
  }

  function Shortened(): App {
    App(Strip([Tab(1, true, Page), Tab(2, true, Page)], Some(1), {2}, [Closed(Tab(3, false, Page), 1)], 4), None, [1, 3, 2])
  }

  lemma DuplicateDrawn()
    ensures StepMenuDuplicate(Drawn(), 1) == Duplicated()
  {
    var s, t := Drawn().strip, Tab(3, false, Page);
    assert Position(s.tabs, 1) == Some(0);
    assert InsertAt(s.tabs, 1, t) == Duplicated().strip.tabs;
    assert OpenAt(s, 1, Page) == Duplicated().strip;
    assert Ids(Duplicated().strip.tabs) == [1, 3, 2];
    hide OpenAt, Position;
  }

  lemma CloseDuplicate()
    ensures StepCloseActive(Duplicated()) == Shortened()
  {
    var s := Duplicated().strip;
    assert RemoveAt(s.tabs, 1) == Shortened().strip.tabs;
    assert Stash([], Closed(s.tabs[1], 1)) == [Closed(s.tabs[1], 1)];
  }

  lemma StaleStripsSound()
    ensures Sound(Drawn().strip) && Foreground(Drawn().strip) && Sound(Shortened().strip)
  {
    assert forall i :: 0 <= i < 2 ==> Shortened().strip.tabs[i].id != 3;
  }

  lemma StaleRun()
    ensures Run(Drawn(), [MenuDuplicate(1), CloseActive, MiddleClick(2)]) == StepMiddleClick(Shortened(), 2)
  {
    hide Sound, Drawn, Duplicated, Shortened, StepMiddleClick, StepMenuDuplicate, StepCloseActive;
    var events := [MenuDuplicate(1), CloseActive, MiddleClick(2)];
    DuplicateDrawn();
    CloseDuplicate();
    assert events[1..] == [CloseActive, MiddleClick(2)] && events[1..][1..] == [MiddleClick(2)];
    assert [MiddleClick(2)][1..] == [];
  }

  predicate Undisturbed(a: App, events: seq<Event>, id: TabId)
    decreases |events|
  {
    events == []
    || (!Lets(a, events[0], id) && !Unpins(a, events[0], id) && Undisturbed(Step(a, events[0]), events[1..], id))
  }

  /**
   Over any run of closes, bulk closes, drags, openings and reopenings, a pinned tab nobody confirmed
   or unpinned is still there and still pinned.
  */
  lemma {:induction false} PinnedSurvives(a: App, events: seq<Event>, id: TabId)
    requires Sound(a.strip) && Pinned(a.strip, id) && Undisturbed(a, events, id)
    ensures Pinned(Run(a, events).strip, id)
    decreases |events|
  {
    if events != [] {
      var t :| t in a.strip.tabs && t.id == id && t.pinned;
      StepOnPinned(a, events[0], t);
      StepKeeps(a, events[0]);
      hide Sound, Step, Lets, Unpins, Has;
      PinnedSurvives(Step(a, events[0]), events[1..], id);
    }
  }

  // ---- pinned tabs lead -------------------------------------------------------------------------

  lemma {:induction false} WithoutPinnedFirst(tabs: seq<Tab>, victims: seq<TabId>)
    requires PinnedFirst(tabs)
    ensures PinnedFirst(Without(tabs, victims))
  {
    if tabs != [] {
      var rest := Without(tabs[1..], victims);
      WithoutPinnedFirst(tabs[1..], victims);
      if !tabs[0].pinned {
        forall k | 0 <= k < |rest| ensures !rest[k].pinned {
          assert rest[k] in tabs[1..];
        }
      }
    }
  }

  /**
   An unpinned tab put in front of a pinned one: only opening at a slot does it, and duplicating any
   pinned tab but the last.
  */
  predicate BreaksBand(a: App, e: Event) {
    var tabs := a.strip.tabs;
    match e
    case Other(OpOpenAt(at, url)) => Min(at, |tabs|) < PinnedCount(tabs)
    case MenuDuplicate(id) =>
      var p := Position(tabs, id);
      p.Some? && !tabs[p.value].url.Empty? && p.value + 1 < PinnedCount(tabs)
    case _ => false
  }

  lemma ActPinnedFirst(s: Strip, op: Op)
    requires Sound(s) && PinnedFirst(s.tabs) && !op.OpOpenAt?
    ensures PinnedFirst(Act(s, op).tabs)
  {
    match op
    case OpOpen(url) =>
    case OpOpenBackground(url) =>
    case OpReopen => if s.closed != [] { ReopenRestores(s); }
    case OpMove(src, dst) => MoveKeeps(s, src, dst);
    case OpTogglePin =>
      if s.active.Some? {
        RepinKeepsSound(s, s.active.value, !s.tabs[s.active.value].pinned);
        EnforceKeeps(s.(tabs := s.tabs[s.active.value := s.tabs[s.active.value].(pinned := !s.tabs[s.active.value].pinned)]));
      }
    case OpSetPinned(id, pinned) => SetPinnedFirst(s, id, pinned);
    case OpSelect(id) =>
    case OpCycle(forward) =>
  }

  lemma SetPinnedFirst(s: Strip, id: TabId, pinned: bool)
    requires Sound(s)
    ensures PinnedFirst(SetPinned(s, id, pinned).tabs)
  {
    var p := Position(s.tabs, id);
    if p.Some? {
      RepinKeepsSound(s, p.value, pinned);
      EnforceKeeps(s.(tabs := s.tabs[p.value := s.tabs[p.value].(pinned := pinned)]));
    } else {
      EnforceKeeps(s);
    }
  }

  lemma ClosesPinnedFirst(s: Strip, id: TabId, victims: seq<TabId>)
    requires Sound(s) && PinnedFirst(s.tabs)
    ensures PinnedFirst(CloseTab(s, id).tabs) && PinnedFirst(CloseAll(s, victims).tabs)
  {
    CloseTabKeeps(s, id);
    CloseAllKeeps(s, victims);
    WithoutPinnedFirst(s.tabs, [id]);
    WithoutPinnedFirst(s.tabs, victims);
  }

  lemma MenuPinnedFirst(a: App, id: TabId)
    requires Sound(a.strip) && PinnedFirst(a.strip.tabs)
    ensures PinnedFirst(StepMenuClose(a, id).strip.tabs)
    ensures PinnedFirst(StepMenuCloseOthers(a, id).strip.tabs) && PinnedFirst(StepMenuCloseToRight(a, id).strip.tabs)
  {
    var s := a.strip;
    var p := Position(s.tabs, id);
    if p.Some? {
      hide Sound, PinnedFirst, CloseTab, CloseAll;
      ClosesPinnedFirst(s, id, OtherIds(s.tabs, id));
      ClosesPinnedFirst(s, id, UnpinnedIds(s.tabs[p.value + 1..]));
    }
  }

  lemma MenuEditPinnedFirst(a: App, id: TabId)
    requires Sound(a.strip) && PinnedFirst(a.strip.tabs)
    ensures PinnedFirst(StepMenuPin(a, id).strip.tabs)
    ensures PinnedFirst(StepMenuDuplicate(a, id).strip.tabs) <==> !BreaksBand(a, MenuDuplicate(id))
  {
    var s := a.strip;
    var p := Position(s.tabs, id);
    if p.Some? {
      hide Sound, PinnedFirst, SetPinned, OpenAt;
      SetPinnedFirst(s, id, !s.tabs[p.value].pinned);
      OpenAtKeepsPinnedFirstIff(s, p.value + 1, s.tabs[p.value].url);
    }
  }

  lemma CloseActivePinnedFirst(a: App)
    requires Sound(a.strip) && PinnedFirst(a.strip.tabs)
    ensures PinnedFirst(StepCloseActive(a).strip.tabs)
  {
    var s := a.strip;
    if s.active.Some? {
      CloseSound(s, s.active.value);
      WithoutIsRemoveAt(s.tabs, s.active.value);
      WithoutPinnedFirst(s.tabs, [s.tabs[s.active.value].id]);
      hide CloseIndex, PinnedFirst, Sound;
    }
  }

  /** Every other operation keeps pinned tabs leading, in every state, so the strip's hit test can count them. */
  lemma StepKeepsPinnedFirstIff(a: App, e: Event)
    requires Sound(a.strip) && PinnedFirst(a.strip.tabs)
    ensures PinnedFirst(Step(a, e).strip.tabs) <==> !BreaksBand(a, e)
  {
    hide Sound, PinnedFirst, CloseTab, StepCloseActive, StepMenuClose, StepMenuPin, StepMenuDuplicate,
      StepMenuCloseOthers, StepMenuCloseToRight, OpenAt, PinnedCount;
    match e
    case CloseActive => CloseActivePinnedFirst(a);
    case MenuClose(id) => MenuPinnedFirst(a, id);
    case MenuCloseOthers(id) => MenuPinnedFirst(a, id);
    case MenuCloseToRight(id) => MenuPinnedFirst(a, id);
    case MenuPin(id) => MenuEditPinnedFirst(a, id);
    case MenuDuplicate(id) => MenuEditPinnedFirst(a, id);
    case MiddleClick(slot) => if slot < |a.ids| { ClosesPinnedFirst(a.strip, a.ids[slot], []); }
    case Resolve(confirm) => if a.armed.Some? { ClosesPinnedFirst(a.strip, a.armed.value, []); }
    case RefreshStrip =>
    case Other(op) =>
      if op.OpOpenAt? {
        OpenAtKeepsPinnedFirstIff(a.strip, op.at, op.url);
      } else {
        hide Act;
        ActPinnedFirst(a.strip, op);
      }
  }

  // ---- in place ---------------------------------------------------------------------------------

  /** The snapshot close-others takes before closing shifts the slots. */
  method CollectOthers(tabs: seq<Tab>, keep: TabId) returns (victims: seq<TabId>)
    ensures victims == OtherIds(tabs, keep)
  {
    victims := [];
    var i := 0;
    while i < |tabs|
      invariant i <= |tabs| && victims + OtherIds(tabs[i..], keep) == OtherIds(tabs, keep)
    {
      assert tabs[i..][1..] == tabs[i + 1..];
      if tabs[i].id != keep && !tabs[i].pinned {
        victims := victims + [tabs[i].id];
      }
      i := i + 1;
    }
  }

  /** And close-to-the-right's: everything unpinned in slots strictly after `index`. */
  method CollectRight(tabs: seq<Tab>, index: nat) returns (victims: seq<TabId>)
    requires index < |tabs|
    ensures victims == UnpinnedIds(tabs[index + 1..])
  {
    victims := [];
    var i := index + 1;
    while i < |tabs|
      invariant index + 1 <= i <= |tabs|
      invariant victims + UnpinnedIds(tabs[i..]) == UnpinnedIds(tabs[index + 1..])
    {
      assert tabs[i..][1..] == tabs[i + 1..];
      if !tabs[i].pinned {
        victims := victims + [tabs[i].id];
      }
      i := i + 1;
    }
  }

  class TabState {
    var tabs: seq<Tab>
    var active: Option<nat>
    var shown: set<TabId>
    var closed: seq<Closed>
    var nextId: TabId
    var armed: Option<TabId>
    var ids: seq<TabId>

    ghost function Host(): Strip
      reads this
    {
      Strip(tabs, active, shown, closed, nextId)
    }

    ghost function Model(): App
      reads this
    {
      App(Host(), armed, ids)
    }

    constructor ()
      ensures Model() == App(Strip([], None, {}, [], 0), None, [])
    {
      tabs, active, shown, closed, nextId := [], None, {}, [], 0;
      armed, ids := None, [];
    }

    method SetActiveIndex(i: nat)
      modifies this`active, this`shown
      ensures Host() == SetActive(old(Host()), i)
    {
      if i >= |tabs| { return; }
      if active.Some? && active.value < |tabs| && active.value != i {
        shown := shown - {tabs[active.value].id};
      }
      shown := shown + {tabs[i].id};
      active := Some(i);
    }

    /** Takes the tab out; a real page goes on the undo stack, whose oldest entries fall out. */
    method Detach(i: nat)
      requires i < |tabs|
      modifies this`tabs, this`active, this`shown, this`closed
      ensures Host() == Detached(old(Host()), i)
    {
      var t := tabs[i];
      tabs := RemoveAt(tabs, i);
      shown := shown - {t.id};
      if t.url.Page? {
        closed := closed + [Closed(t, i)];
        var extra := |closed| - CLOSED_STACK_CAP;
        if extra > 0 { closed := closed[extra..]; }
      }
      active := ActiveAfterClose(active, i);
    }

    method CloseAt(i: nat)
      modifies this`tabs, this`active, this`shown, this`closed
      ensures Host() == CloseIndex(old(Host()), i)
    {
      if i >= |tabs| { return; }
      Detach(i);
      if |tabs| == 0 {
        active := None;
        return;
      }
      SetActiveIndex(if i >= |tabs| then |tabs| - 1 else i);
    }

    method CloseWithId(id: TabId)
      modifies this`tabs, this`active, this`shown, this`closed
      ensures Host() == CloseTab(old(Host()), id)
    {
      var p := Position(tabs, id);
      if p.Some? { CloseAt(p.value); }
    }

    method SelectWithId(id: TabId)
      modifies this`active, this`shown
      ensures Host() == SelectTab(old(Host()), id)
    {
      var p := Position(tabs, id);
      if p.Some? { SetActiveIndex(p.value); }
    }

    method EnforceOrdering()
      modifies this`tabs, this`active
      ensures Host() == EnforcePinnedOrdering(old(Host()))
    {
      var activeId := if active.Some? && active.value < |tabs| then Some(tabs[active.value].id) else None;
      tabs := WithPin(tabs, true) + WithPin(tabs, false);
      active := if activeId.Some? then Position(tabs, activeId.value) else None;
    }

    method Reopen()
      modifies this`tabs, this`active, this`shown, this`closed
      ensures Host() == ReopenClosed(old(Host()))
    {
      if closed == [] { return; }
      var c := closed[|closed| - 1];
      closed := closed[..|closed| - 1];
      var i := Min(c.index, |tabs|);
      tabs := InsertAt(tabs, i, c.tab);
      shown := shown + {c.tab.id};
      SetActiveIndex(i);
      EnforceOrdering();
    }

    method OpenTabAt(at: nat, url: Url)
      modifies this`tabs, this`active, this`shown, this`nextId
      ensures Host() == OpenAt(old(Host()), at, url)
    {
      var t := Tab(nextId, false, url);
      nextId := nextId + 1;
      var appended := |tabs|;
      var i := Min(at, appended);
      tabs := InsertAt(tabs, i, t);
      if active.Some? && i <= active.value < appended {
        active := Some(active.value + 1);
      }
      SetActiveIndex(i);
    }

    method Drag(from: nat, to: nat)
      modifies this`tabs, this`active
      ensures Host() == MoveTab(old(Host()), from, to)
    {
      if from == to || from >= |tabs| { return; }
      var dst := Landing(tabs, from, to);
      if dst == from { return; }
      var t := tabs[from];
      tabs := InsertAt(RemoveAt(tabs, from), dst, t);
      if active.Some? {
        var a := active.value;
        if a == from { active := Some(dst); }
        else if from < a && dst >= a { active := Some(a - 1); }
        else if from > a && dst <= a { active := Some(a + 1); }
      }
    }

    method ArmPinnedClose(id: TabId)
      modifies this`armed
      ensures Model() == Arm(old(Model()), id)
    {
      if armed.None? { armed := Some(id); }
    }

    method RefreshTabStrip()
      modifies this`ids
      ensures Model() == Refresh(old(Model()))
    {
      ids := [];
      var i := 0;
      while i < |tabs|
        invariant i <= |tabs| && ids == Ids(tabs[..i])
        modifies this`ids
      {
        assert tabs[..i + 1] == tabs[..i] + [tabs[i]];
        ids := ids + [tabs[i].id];
        i := i + 1;
      }
      assert tabs[..|tabs|] == tabs;
    }

    method CloseActiveTabOrExit()
      modifies this
      ensures Model() == StepCloseActive(old(Model()))
    {
      if active.None? || active.value >= |tabs| { return; }
      if tabs[active.value].pinned {
        ArmPinnedClose(tabs[active.value].id);
        return;
      }
      CloseAt(active.value);
    }

    method ResolvePinnedClose(confirm: bool)
      modifies this
      ensures Model() == StepResolve(old(Model()), confirm)
    {
      if armed.None? { return; }
      var target := armed.value;
      armed := None;
      if !confirm { return; }
      CloseWithId(target);
      RefreshTabStrip();
    }

    method MenuTabClose(id: TabId)
      modifies this
      ensures Model() == StepMenuClose(old(Model()), id)
    {
      var p := Position(tabs, id);
      if p.None? { return; }
      if tabs[p.value].pinned {
        ArmPinnedClose(id);
        return;
      }
      CloseWithId(id);
      RefreshTabStrip();
    }

    method CloseEach(victims: seq<TabId>)
      modifies this`tabs, this`active, this`shown, this`closed
      ensures Host() == CloseAll(old(Host()), victims)
    {
      var i := 0;
      while i < |victims|
        invariant i <= |victims|
        invariant CloseAll(Host(), victims[i..]) == CloseAll(old(Host()), victims)
      {
        assert victims[i..][1..] == victims[i + 1..];
        CloseWithId(victims[i]);
        i := i + 1;
      }
    }

    method MenuTabCloseOthers(keep: TabId)
      modifies this
      ensures Model() == StepMenuCloseOthers(old(Model()), keep)
    {
      hide CloseAll, OtherIds, SelectTab;
      if Position(tabs, keep).None? { return; }
      var victims := CollectOthers(tabs, keep);
      CloseEach(victims);
      SelectWithId(keep);
      RefreshTabStrip();
    }

    method MenuTabCloseToRight(id: TabId)
      modifies this
      ensures Model() == StepMenuCloseToRight(old(Model()), id)
    {
      hide CloseAll, UnpinnedIds;
      var p := Position(tabs, id);
      if p.None? { return; }
      var victims := CollectRight(tabs, p.value);
      CloseEach(victims);
      RefreshTabStrip();
    }

    method MiddleClickOn(slot: nat)
      modifies this
      ensures Model() == StepMiddleClick(old(Model()), slot)
    {
      if slot >= |ids| { return; }
      var id := ids[slot];
      var pinned := slot < |tabs| && tabs[slot].pinned;
      if pinned {
        ArmPinnedClose(id);
        return;
      }
      CloseWithId(id);
      RefreshTabStrip();
    }
  }
}
