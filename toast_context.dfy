/**
 * The application-wide toast queue (src/contexts/ToastContext.jsx): an ordered
 * list of `{id, message, type}` records, appended to by `addToast`, filtered by
 * `removeToast`, and emptied of each toast by a removal scheduled 5000 ms after
 * it was added. Time is a logical millisecond clock that `Advance` moves forward;
 * each pending `setTimeout` is a `Timer` record.
 */
module ToastContext {
  import opened Wrappers
  import opened Seqs

  /** Delay between `addToast` and the removal it schedules. */
  const AUTO_DISMISS_MS: nat := 5000

  /** The `type` of a toast whose caller gave none. */
  const DEFAULT_KIND: string := "info"

  /** One toast; `kind` is the source's `type` field. */
  datatype Toast = Toast(id: string, message: string, kind: string)

  /** A pending `setTimeout(() => removeToast(id), 5000)`: remove `id` once the clock reaches `due`. */
  datatype Timer = Timer(id: string, due: nat)

  /** The icons a toast can show. */
  datatype Icon = CheckCircleIcon | AlertCircleIcon | InfoIcon

  /** `t => t.id !== id`, the predicate `removeToast` filters with. */
  function IdIsNot(id: string): Toast -> bool
  {
    (t: Toast) => t.id != id
  }

  /** Keeps the toasts whose id is outside `ids`. */
  function IdNotIn(ids: set<string>): Toast -> bool
  {
    (t: Toast) => t.id !in ids
  }

  /** The queue after `removeToast(id)`. */
  function Without(ts: seq<Toast>, id: string): (r: seq<Toast>)
    ensures forall t :: t in r ==> t in ts && t.id != id
  {
    Filter(IdIsNot(id), ts)
  }

  /**
   * `removeToast(id)` removes every toast with that id and nothing else: the
   * others stay, as often as before and in their relative order.
   */
  lemma WithoutExactly(ts: seq<Toast>, id: string)
    ensures forall t :: t in Without(ts, id) <==> t in ts && t.id != id
    ensures forall t :: t in ts && t.id != id ==> multiset(Without(ts, id))[t] == multiset(ts)[t]
    ensures IsSubseq(Without(ts, id), ts)
  {
    FilterCounts(IdIsNot(id), ts);
    FilterIsSubseq(IdIsNot(id), ts);
  }

  /** Removing an id that no toast carries leaves the queue unchanged. */
  lemma WithoutAbsent(ts: seq<Toast>, id: string)
    requires forall t :: t in ts ==> t.id != id
    ensures Without(ts, id) == ts
  {
    FilterAll(IdIsNot(id), ts);
  }

  /** Removing twice is removing once: a timer firing after a manual close is a no-op. */
  lemma WithoutIdempotent(ts: seq<Toast>, id: string)
    ensures Without(Without(ts, id), id) == Without(ts, id)
  {
    FilterIdempotent(IdIsNot(id), ts);
  }

  /** Removing the id of the toast just appended takes it off again, and every earlier toast with that id. */
  lemma WithoutAppended(ts: seq<Toast>, t: Toast)
    ensures Without(ts + [t], t.id) == Without(ts, t.id)
  {
    FilterConcat(IdIsNot(t.id), ts, [t]);
  }

  /** Removing one id leaves the other toasts in order: it commutes with concatenation. */
  lemma WithoutConcat(a: seq<Toast>, b: seq<Toast>, id: string)
    ensures Without(a + b, id) == Without(a, id) + Without(b, id)
  {
    FilterConcat(IdIsNot(id), a, b);
  }

  /** The ids that have a pending removal. */
  function TimerIds(timers: seq<Timer>): set<string>
  {
    set tm | tm in timers :: tm.id
  }

  /** The ids whose removal is due by time `now`. */
  function DueIds(timers: seq<Timer>, now: nat): set<string>
  {
    set i | 0 <= i < |timers| && timers[i].due <= now :: timers[i].id
  }

  /** Keeps the timers that are not due by time `now`. */
  function DueAfter(now: nat): Timer -> bool
  {
    (tm: Timer) => tm.due > now
  }

  /**
   * The icon the `Toast` view shows for a type: `icons[type] || icons.info`,
   * read as the lookup table the authors meant (the table's three keys, info otherwise).
   */
  function IconFor(kind: string): (icon: Icon)
    ensures icon == CheckCircleIcon <==> kind == "success"
    ensures icon == AlertCircleIcon <==> kind == "error"
    ensures icon == InfoIcon <==> kind != "success" && kind != "error"
  {
    if kind == "success" then CheckCircleIcon
    else if kind == "error" then AlertCircleIcon
    else InfoIcon
  }

  /** What a JavaScript property read `icons[type]` yields. */
  datatype Slot = IconElement(icon: Icon) | InheritedMember(name: string)

  /** The property names every plain JavaScript object inherits from `Object.prototype`. */
  const OBJECT_PROTOTYPE_KEYS: set<string> :=
    {"constructor", "hasOwnProperty", "isPrototypeOf", "propertyIsEnumerable",
     "toLocaleString", "toString", "valueOf", "__proto__", "__defineGetter__",
     "__defineSetter__", "__lookupGetter__", "__lookupSetter__"}

  /** `icons[type]` on the object literal of the `Toast` view: own keys, then inherited ones. */
  function IconsLookup(kind: string): (slot: Option<Slot>)
    ensures slot.None? <==> kind !in {"success", "error", "info"} && kind !in OBJECT_PROTOTYPE_KEYS
  {
    if kind == "success" then Some(IconElement(CheckCircleIcon))
    else if kind == "error" then Some(IconElement(AlertCircleIcon))
    else if kind == "info" then Some(IconElement(InfoIcon))
    else if kind in OBJECT_PROTOTYPE_KEYS then Some(InheritedMember(kind))
    else None
  }

  /** `icons[type] || icons.info` as written: every inherited member is truthy, so it wins. */
  function IconAsWritten(kind: string): (slot: Slot)
    ensures kind !in OBJECT_PROTOTYPE_KEYS ==> slot == IconElement(IconFor(kind))
  {
    var found := IconsLookup(kind);
    if found.Some? then found.value else IconElement(InfoIcon)
  }

  /** A type named like an inherited member is not given the info icon by the fallback. */
  lemma InheritedKeyBypassesFallback()
    ensures IconAsWritten("toString") == InheritedMember("toString")
    ensures IconFor("toString") == InfoIcon
  {
  }

  /** The `ToastProvider` component's state: the `toasts` cell and its pending timers. */
  class ToastProvider {
    var toasts: seq<Toast>
    /** Pending removals, in the order `setTimeout` was called. */
    var timers: seq<Timer>
    /** Logical time in milliseconds. */
    var clock: nat

    ghost predicate Valid()
      reads this
    {
      QueueInvariant(toasts, timers, clock)
    }

    /** `useState([])`. */
    constructor ()
      ensures Valid() && toasts == [] && timers == [] && clock == 0
    {
      toasts, timers, clock := [], [], 0;
    }

    /** `addToast(message, type = 'info')` with the fresh id it draws. */
    method AddToast(id: string, message: string, kind: Option<string>)
      requires Valid()
      modifies this
      ensures Valid()
      ensures toasts == old(toasts) + [Toast(id, message, kind.GetOr(DEFAULT_KIND))]
      ensures timers == old(timers) + [Timer(id, clock + AUTO_DISMISS_MS)]
      ensures clock == old(clock)
    {
      toasts := toasts + [Toast(id, message, kind.GetOr(DEFAULT_KIND))];
      timers := timers + [Timer(id, clock + AUTO_DISMISS_MS)];
    }

    /** `removeToast(id)`, also what a toast's close button runs. */
    method RemoveToast(id: string)
      requires Valid()
      modifies this`toasts
      ensures Valid()
      ensures toasts == Without(old(toasts), id)
    {
      toasts := Without(toasts, id);
    }

    /**
     * Lets time pass until `now`: every timer due by then fires, in order, and
     * removes its id. Afterwards exactly the toasts whose id had a removal due
     * are gone, the other toasts keep their order, and the timers not yet due
     * remain. Once a full delay has passed since the current time, nothing is shown.
     */
    method Advance(now: nat)
      requires Valid() && clock <= now
      modifies this
      ensures Valid() && clock == now
      ensures toasts == Filter(IdNotIn(DueIds(old(timers), now)), old(toasts))
      ensures timers == Filter(DueAfter(now), old(timers))
      ensures now >= old(clock) + AUTO_DISMISS_MS ==> toasts == [] && timers == []
    {
      ghost var toasts0 := toasts;
      var k := FireDue(now);
      Settle(toasts0, timers, clock, k, now);
      timers := timers[k..];
      clock := now;
    }

    /** The callback of timer `k`, once the `k` before it have fired: `removeToast` of its id. */
    method FireTimer(ghost shown: seq<Toast>, k: nat)
      requires Valid() && k < |timers|
      requires toasts == Filter(IdNotIn(FirstIds(timers, k)), shown)
      modifies this`toasts
      ensures Valid()
      ensures toasts == Filter(IdNotIn(FirstIds(timers, k + 1)), shown)
    {
      FireOne(shown, timers, k);
      RemoveToast(timers[k].id);
    }

    /** The loop of timer callbacks: fires, in order, the timers due by `now`; returns how many. */
    method FireDue(now: nat) returns (k: nat)
      requires Valid() && clock <= now
      modifies this`toasts
      ensures Valid()
      ensures k <= |timers|
      ensures forall i :: 0 <= i < |timers| ==> (timers[i].due <= now <==> i < k)
      ensures toasts == Filter(IdNotIn(FirstIds(timers, k)), old(toasts))
    {
      ghost var shown := toasts;
      FilterAll(IdNotIn(FirstIds(timers, 0)), shown);
      k := 0;
      while k < |timers| && timers[k].due <= now
        invariant Valid()
        invariant k <= |timers|
        invariant k == 0 || timers[k - 1].due <= now
        invariant toasts == Filter(IdNotIn(FirstIds(timers, k)), shown)
      {
        FireTimer(shown, k);
        k := k + 1;
      }
      DuePrefix(timers, k, now);
    }
  }

  /** The invariant of the queue (see `ToastProvider.Valid`). */
  ghost predicate QueueInvariant(toasts: seq<Toast>, timers: seq<Timer>, clock: nat)
  {
    // every pending removal is in the future, at most one delay ahead
    && (forall i :: 0 <= i < |timers| ==> clock < timers[i].due <= clock + AUTO_DISMISS_MS)
    // timers are scheduled with one fixed delay, so they fall due in order
    && (forall i, j :: 0 <= i < j < |timers| ==> timers[i].due <= timers[j].due)
    // every toast shown still has a removal pending
    && (forall t :: t in toasts ==> t.id in TimerIds(timers))
  }

  /**
   * Once the `k` due timers have fired: dropping them and moving the clock to `now`
   * keeps the invariant, the fired ids are the due ones, the timers kept are the
   * ones not due, and after a full delay nothing is left.
   */
  lemma Settle(toasts0: seq<Toast>, timers: seq<Timer>, clock: nat, k: nat, now: nat)
    requires QueueInvariant(toasts0, timers, clock) && clock <= now && k <= |timers|
    requires forall i :: 0 <= i < |timers| ==> (timers[i].due <= now <==> i < k)
    ensures QueueInvariant(Filter(IdNotIn(FirstIds(timers, k)), toasts0), timers[k..], now)
    ensures FirstIds(timers, k) == DueIds(timers, now)
    ensures Filter(DueAfter(now), timers) == timers[k..]
    ensures now >= clock + AUTO_DISMISS_MS ==> Filter(IdNotIn(FirstIds(timers, k)), toasts0) == [] && timers[k..] == []
  {
    DueIdsPrefix(timers, k, now);
    NotDueSuffix(timers, k, now);
    RestPending(toasts0, timers, clock, k, now);
    assert k == |timers| || timers[k].due > now;
    if now >= clock + AUTO_DISMISS_MS {
      ShownHasPending(Filter(IdNotIn(FirstIds(timers, k)), toasts0), timers[k..]);
    }
  }

  /** Dropping the `k` fired timers and moving the clock to `now` keeps the invariant. */
  lemma RestPending(toasts0: seq<Toast>, timers: seq<Timer>, clock: nat, k: nat, now: nat)
    requires QueueInvariant(toasts0, timers, clock) && clock <= now && k <= |timers|
    requires forall i :: 0 <= i < |timers| ==> (timers[i].due <= now <==> i < k)
    ensures QueueInvariant(Filter(IdNotIn(FirstIds(timers, k)), toasts0), timers[k..], now)
  {
    var ts := Filter(IdNotIn(FirstIds(timers, k)), toasts0);
    PendingSuffix(ts, timers, k);
  }

  /** The ids of the first `k` timers. */
  function FirstIds(timers: seq<Timer>, k: nat): set<string>
    requires k <= |timers|
  {
    set i | 0 <= i < k :: timers[i].id
  }

  /** Firing timer `k` after the first `k` removes the ids of the first `k + 1`. */
  lemma FireOne(ts: seq<Toast>, timers: seq<Timer>, k: nat)
    requires k < |timers|
    ensures Without(Filter(IdNotIn(FirstIds(timers, k)), ts), timers[k].id)
         == Filter(IdNotIn(FirstIds(timers, k + 1)), ts)
  {
    FirstIdsStep(timers, k);
    FilterCompose(IdNotIn(FirstIds(timers, k)), IdIsNot(timers[k].id), IdNotIn(FirstIds(timers, k + 1)), ts);
  }

  /** The first `k + 1` timers carry one id more than the first `k`. */
  lemma FirstIdsStep(timers: seq<Timer>, k: nat)
    requires k < |timers|
    ensures FirstIds(timers, k + 1) == FirstIds(timers, k) + {timers[k].id}
  {
    forall x | x in FirstIds(timers, k + 1) ensures x in FirstIds(timers, k) + {timers[k].id} {
      var i :| 0 <= i < k + 1 && timers[i].id == x;
      if i < k {
        assert x in FirstIds(timers, k);
      }
    }
  }

  /** For timers sorted by due time, the timers due by `now` are a prefix. */
  lemma DuePrefix(timers: seq<Timer>, k: nat, now: nat)
    requires forall i, j :: 0 <= i < j < |timers| ==> timers[i].due <= timers[j].due
    requires k <= |timers| && (k == 0 || timers[k - 1].due <= now)
    requires k == |timers| || timers[k].due > now
    ensures forall i :: 0 <= i < |timers| ==> (timers[i].due <= now <==> i < k)
  {
    forall i | 0 <= i < |timers| ensures timers[i].due <= now <==> i < k {
      if i < k {
        assert timers[i].due <= timers[k - 1].due;
      } else {
        assert timers[k].due <= timers[i].due;
      }
    }
  }

  /** The due timers' ids are those of the prefix. */
  lemma DueIdsPrefix(timers: seq<Timer>, k: nat, now: nat)
    requires k <= |timers|
    requires forall i :: 0 <= i < |timers| ==> (timers[i].due <= now <==> i < k)
    ensures FirstIds(timers, k) == DueIds(timers, now)
  {
    forall x | x in DueIds(timers, now) ensures x in FirstIds(timers, k) {
      var i :| 0 <= i < |timers| && timers[i].due <= now && timers[i].id == x;
    }
    forall x | x in FirstIds(timers, k) ensures x in DueIds(timers, now) {
      var i :| 0 <= i < k && timers[i].id == x;
    }
  }

  /**
   * A toast whose removal is due by `now` is not shown after time reaches `now`,
   * nor is any other toast with its id.
   */
  lemma DueToastGone(ts: seq<Toast>, timers: seq<Timer>, now: nat, i: nat)
    requires i < |timers| && timers[i].due <= now
    ensures forall t :: t in Filter(IdNotIn(DueIds(timers, now)), ts) ==> t.id != timers[i].id
  {
    assert timers[i].id in DueIds(timers, now);
  }

  /** The timers not due are those after the prefix. */
  lemma NotDueSuffix(timers: seq<Timer>, k: nat, now: nat)
    requires k <= |timers|
    requires forall i :: 0 <= i < |timers| ==> (timers[i].due <= now <==> i < k)
    ensures Filter(DueAfter(now), timers) == timers[k..]
  {
    assert timers == timers[..k] + timers[k..];
    FilterConcat(DueAfter(now), timers[..k], timers[k..]);
    FilterNone(DueAfter(now), timers[..k]);
    FilterAll(DueAfter(now), timers[k..]);
  }

  /** A toast that outlived the first `k` timers still has a removal among the rest. */
  lemma PendingSuffix(ts: seq<Toast>, timers: seq<Timer>, k: nat)
    requires k <= |timers|
    requires forall t :: t in ts ==> t.id in TimerIds(timers) && t.id !in FirstIds(timers, k)
    ensures forall t :: t in ts ==> t.id in TimerIds(timers[k..])
  {
    forall t | t in ts ensures t.id in TimerIds(timers[k..]) {
      var j :| j in timers && j.id == t.id;
      var i :| 0 <= i < |timers| && timers[i] == j;
      assert i >= k;
      assert timers[k..][i - k] == j;
    }
  }

  /** A toast can be shown only while some removal is pending. */
  lemma ShownHasPending(ts: seq<Toast>, timers: seq<Timer>)
    requires forall t :: t in ts ==> t.id in TimerIds(timers)
    ensures ts != [] ==> timers != []
  {
    if ts != [] {
      assert ts[0] in ts;
    }
  }

  /** The one toast `q` gained between the method's pre-state and now, with its pending removal. */
  twostate predicate ToastAdded(q: ToastProvider, t: Toast)
    reads q
  {
    && q.Valid()
    && q.toasts == old(q.toasts) + [t]
    && q.timers == old(q.timers) + [Timer(t.id, q.clock + AUTO_DISMISS_MS)]
    && q.clock == old(q.clock)
  }
}
