/** The limit on new pairing requests: each remote address and each machine has
    a window of one minute, which starts with its first grant. Times are in
    milliseconds. */
module PairingLimiter {
  datatype Key = Remote(address: string) | Machine(id: string)

  datatype Window = Window(startedAt: int, count: nat)

  /** One grant, as one of its two keys saw it. */
  datatype Grant = Grant(key: Key, at: int, start: int)

  const LIMIT: nat := 10
  const DURATION := 60_000
  const MAX_WINDOWS: nat := 4096

  type Windows = map<Key, Window>

  predicate Expired(window: Window, now: int) {
    now >= window.startedAt + DURATION
  }

  function Unexpired(windows: Windows, now: int): Windows {
    map key | key in windows && !Expired(windows[key], now) :: windows[key]
  }

  function CountOf(windows: Windows, key: Key): nat {
    if key in windows then windows[key].count else 0
  }

  function Counted(windows: Windows, key: Key, now: int): Windows {
    windows[key := if key in windows then windows[key].(count := windows[key].count + 1) else Window(now, 1)]
  }

  /** The grants of one window of a key, as positions in the log. */
  ghost function InWindow(log: seq<Grant>, key: Key, start: int): set<nat> {
    set i | 0 <= i < |log| && log[i].key == key && log[i].start == start
  }

  /** The grants of a key in the minute that begins at t. */
  ghost function InMinute(log: seq<Grant>, key: Key, t: int): set<nat> {
    set i | 0 <= i < |log| && log[i].key == key && t <= log[i].at < t + DURATION
  }

  // ---- The invariant -------------------------------------------------------------------

  /** The windows of a key do not overlap. */
  ghost predicate Spaced(log: seq<Grant>, clock: int) {
    && (forall i :: 0 <= i < |log| ==> log[i].start <= log[i].at < log[i].start + DURATION && log[i].at <= clock)
    && (forall i, j :: 0 <= i < |log| && 0 <= j < |log| && log[i].key == log[j].key && log[i].start < log[j].start ==>
                         log[i].start + DURATION <= log[j].start)
  }

  ghost predicate SizesOk(log: seq<Grant>) {
    forall key, start :: |InWindow(log, key, start)| <= LIMIT
  }

  ghost predicate LogOk(log: seq<Grant>, clock: int) {
    Spaced(log, clock) && SizesOk(log)
  }

  ghost predicate WindowOk(log: seq<Grant>, windows: Windows, clock: int, key: Key) {
    if key in windows then
      && windows[key].startedAt <= clock && 1 <= windows[key].count == |InWindow(log, key, windows[key].startedAt)|
      && forall i :: 0 <= i < |log| && log[i].key == key ==> log[i].start <= windows[key].startedAt
    else
      forall i :: 0 <= i < |log| && log[i].key == key ==> log[i].start + DURATION <= clock
  }

  ghost predicate WindowsOk(log: seq<Grant>, windows: Windows, clock: int) {
    && (forall key :: WindowOk(log, windows, clock, key))
    && |windows| <= MAX_WINDOWS
  }

  /** A minute touches at most two windows of a key. */
  lemma TwoWindows(log: seq<Grant>, clock: int, key: Key, t: int)
    requires LogOk(log, clock)
    ensures |InMinute(log, key, t)| <= 2 * LIMIT
  {
    var all := InMinute(log, key, t);
    if i: nat :| i in all {
      var first := InWindow(log, key, log[i].start);
      if j: nat :| j in all && j !in first {
        var second := InWindow(log, key, log[j].start);
        forall k | k in all ensures k in first + second {
          NoThird(log, clock, key, t, i, j, k);
        }
        SubsetSize(all, first + second);
        UnionSize(first, second);
      } else {
        SubsetSize(all, first);
      }
    } else {
      assert all == {};
    }
  }

  lemma NoThird(log: seq<Grant>, clock: int, key: Key, t: int, i: nat, j: nat, k: nat)
    requires LogOk(log, clock)
    requires i in InMinute(log, key, t) && j in InMinute(log, key, t) && k in InMinute(log, key, t)
    requires log[i].start != log[j].start
    ensures log[k].start == log[i].start || log[k].start == log[j].start
  {
  }

  lemma {:induction false} SubsetSize(a: set<nat>, b: set<nat>)
    requires a <= b
    ensures |a| <= |b|
  {
    if a != {} {
      var x :| x in a;
      SubsetSize(a - {x}, b - {x});
    }
  }

  lemma UnionSize(a: set<nat>, b: set<nat>)
    ensures |a + b| <= |a| + |b|
  {
    assert a + b == a + (b - a);
    assert |a + (b - a)| == |a| + |b - a|;
    SubsetSize(b - a, b);
  }

  // ---- One call ----------------------------------------------------------------------------

  lemma UnexpiredOk(log: seq<Grant>, windows: Windows, clock: int, now: int)
    requires WindowsOk(log, windows, clock) && clock <= now
    ensures WindowsOk(log, Unexpired(windows, now), now)
  {
    forall key ensures WindowOk(log, Unexpired(windows, now), now, key) {
      assert WindowOk(log, windows, clock, key);
    }
    FewerWindows(windows, Unexpired(windows, now));
  }

  lemma {:induction false} FewerWindows(a: Windows, b: Windows)
    requires b.Keys <= a.Keys
    ensures |b| <= |a|
    decreases |b|
  {
    if b != map[] {
      var key :| key in b;
      FewerWindows(a - {key}, b - {key});
    }
  }

  lemma LaterClock(log: seq<Grant>, clock: int, now: int)
    requires LogOk(log, clock) && clock <= now
    ensures LogOk(log, now)
  {
  }

  lemma OneMore(log: seq<Grant>, grant: Grant, key: Key, start: int)
    ensures InWindow(log + [grant], key, start) ==
            InWindow(log, key, start) + if grant.key == key && grant.start == start then {|log|} else {}
  {
  }

  /** The grant that counting a key adds to the log. */
  function GrantFor(windows: Windows, key: Key, now: int): Grant {
    Grant(key, now, Counted(windows, key, now)[key].startedAt)
  }

  lemma GrantSpaced(log: seq<Grant>, windows: Windows, now: int, key: Key)
    requires Spaced(log, now) && WindowOk(log, windows, now, key) && (key in windows ==> !Expired(windows[key], now))
    ensures Spaced(log + [GrantFor(windows, key, now)], now)
  {
    hide InWindow;
    var grant := GrantFor(windows, key, now);
    var log' := log + [grant];
    forall i | 0 <= i < |log| && log[i].key == key
      ensures log[i].start == grant.start || log[i].start + DURATION <= grant.start
    {
      if key in windows && log[i].start < grant.start {
        StartsApart(log, windows, now, key, i);
      }
    }
  }

  lemma StartsApart(log: seq<Grant>, windows: Windows, now: int, key: Key, i: nat)
    requires Spaced(log, now) && WindowOk(log, windows, now, key) && key in windows
    requires i < |log| && log[i].key == key && log[i].start < windows[key].startedAt
    ensures log[i].start + DURATION <= windows[key].startedAt
  {
    var j :| j in InWindow(log, key, windows[key].startedAt);
    assert log[j].key == key && log[j].start == windows[key].startedAt;
  }

  lemma GrantSizes(log: seq<Grant>, windows: Windows, now: int, key: Key)
    requires SizesOk(log) && WindowOk(log, windows, now, key) && CountOf(windows, key) < LIMIT
    ensures SizesOk(log + [GrantFor(windows, key, now)])
  {
    hide InWindow;
    var grant := GrantFor(windows, key, now);
    NoneYet(log, windows, now, key);
    forall k, start ensures |InWindow(log + [grant], k, start)| <= LIMIT {
      OneMore(log, grant, k, start);
      Unseen(log, k, start);
      SizeOfOneMore(InWindow(log, k, start), |log|);
    }
  }

  lemma Unseen(log: seq<Grant>, key: Key, start: int)
    ensures |log| !in InWindow(log, key, start)
  {
  }

  lemma GrantOwnWindow(log: seq<Grant>, windows: Windows, now: int, key: Key)
    requires WindowOk(log, windows, now, key)
    ensures WindowOk(log + [GrantFor(windows, key, now)], Counted(windows, key, now), now, key)
  {
    hide InWindow;
    var start := Counted(windows, key, now)[key].startedAt;
    NoneYet(log, windows, now, key);
    OneMore(log, GrantFor(windows, key, now), key, start);
    Unseen(log, key, start);
    SizeOfOneMore(InWindow(log, key, start), |log|);
  }

  lemma GrantOtherWindow(log: seq<Grant>, windows: Windows, now: int, key: Key, k: Key)
    requires WindowOk(log, windows, now, k) && k != key
    ensures WindowOk(log + [GrantFor(windows, key, now)], Counted(windows, key, now), now, k)
  {
    hide InWindow;
    if k in windows {
      OneMore(log, GrantFor(windows, key, now), k, windows[k].startedAt);
      assert InWindow(log, k, windows[k].startedAt) + {} == InWindow(log, k, windows[k].startedAt);
    }
  }

  /** Counting one grant for a key that may still have one. */
  lemma GrantOk(log: seq<Grant>, windows: Windows, now: int, key: Key)
    requires LogOk(log, now) && (forall k :: WindowOk(log, windows, now, k)) && CountOf(windows, key) < LIMIT
    requires key in windows ==> !Expired(windows[key], now)
    ensures var log' := log + [GrantFor(windows, key, now)];
            LogOk(log', now) && forall k :: WindowOk(log', Counted(windows, key, now), now, k)
  {
    hide Spaced, SizesOk, WindowOk;
    GrantSpaced(log, windows, now, key);
    GrantSizes(log, windows, now, key);
    forall k ensures WindowOk(log + [GrantFor(windows, key, now)], Counted(windows, key, now), now, k) {
      if k == key {
        GrantOwnWindow(log, windows, now, key);
      } else {
        GrantOtherWindow(log, windows, now, key, k);
      }
    }
  }

  lemma SizeOfOneMore(s: set<nat>, n: nat)
    requires n !in s
    ensures |s + {n}| == |s| + 1 && s + {} == s
  {
  }

  lemma NoneYet(log: seq<Grant>, windows: Windows, now: int, key: Key)
    requires WindowOk(log, windows, now, key)
    ensures |InWindow(log, key, Counted(windows, key, now)[key].startedAt)| == CountOf(windows, key)
  {
    if key !in windows {
      assert InWindow(log, key, now) == {};
    }
  }

  class Limiter {
    var windows: Windows
    ghost var log: seq<Grant>
    ghost var clock: int

    ghost predicate Valid()
      reads this
    {
      LogOk(log, clock) && WindowsOk(log, windows, clock)
    }

    constructor ()
      ensures Valid() && windows == map[] && log == []
    {
      windows, log, clock := map[], [], 0;
      new;
      NothingYet(clock);
    }

    method EvictExpired(now: int)
      modifies this`windows
      ensures windows == Unexpired(old(windows), now)
      ensures forall key :: key in windows <==> key in old(windows) && now < old(windows)[key].startedAt + 60_000
      ensures forall key :: key in windows ==> windows[key] == old(windows)[key]
    {
      var keys := windows.Keys;
      while keys != {}
        invariant keys <= old(windows).Keys
        invariant forall k :: k in windows <==> k in old(windows) && (k in keys || !Expired(old(windows)[k], now))
        invariant forall k :: k in windows ==> windows[k] == old(windows)[k]
        decreases keys
      {
        var key :| key in keys;
        if Expired(windows[key], now) {
          windows := windows - {key};
        }
        keys := keys - {key};
      }
    }

    /** Granted exactly if neither window is full and the table has room; a refusal only evicts. */
    method Allow(remoteAddress: string, machineId: string, now: int) returns (ok: bool)
      requires Valid() && clock <= now
      modifies this
      ensures Valid() && clock == now
      ensures var left := Unexpired(old(windows), now);
              var (remote, machine) := (Remote(remoteAddress), Machine(machineId));
              var added := (if remote in left then 0 else 1) + (if machine in left then 0 else 1);
              var room := |left| + added <= 4096;
              && (ok <==> CountOf(left, remote) < 10 && CountOf(left, machine) < 10 && room)
              && windows == (if ok then Counted(Counted(left, remote, now), machine, now) else left)
              && log == if ok then old(log) + [GrantFor(left, remote, now)] + [GrantFor(left, machine, now)]
                 else old(log)
    {
      hide LogOk, WindowOk;
      EvictExpired(now);
      clock := now;
      UnexpiredOk(old(log), old(windows), old(clock), now);
      LaterClock(old(log), old(clock), now);
      var remote, machine := Remote(remoteAddress), Machine(machineId);
      var remoteWindow := if remote in windows then windows[remote] else Window(0, 0);
      var machineWindow := if machine in windows then windows[machine] else Window(0, 0);
      if remoteWindow.count >= LIMIT || machineWindow.count >= LIMIT {
        return false;
      }
      var newWindows := 0;
      if remote !in windows {
        newWindows := newWindows + 1;
        remoteWindow := Window(now, 0);
      }
      if machine !in windows {
        newWindows := newWindows + 1;
        machineWindow := Window(now, 0);
      }
      if |windows| + newWindows > MAX_WINDOWS {
        return false;
      }
      ghost var left := windows;
      GrantOk(log, windows, now, remote);
      log := log + [GrantFor(windows, remote, now)];
      windows := windows[remote := remoteWindow.(count := remoteWindow.count + 1)];
      GrantOk(log, windows, now, machine);
      log := log + [GrantFor(windows, machine, now)];
      windows := windows[machine := machineWindow.(count := machineWindow.count + 1)];
      ok := true;
    }

    /** At any time: no more than ten grants in a window of a key, twenty in any minute, and 4096 windows. */
    lemma Limited(key: Key, start: int, t: int)
      requires Valid()
      ensures |InWindow(log, key, start)| <= 10 && |InMinute(log, key, t)| <= 20 && |windows| <= 4096
    {
      TwoWindows(log, clock, key, t);
    }
  }

  lemma NothingYet(clock: int)
    ensures LogOk([], clock) && WindowsOk([], map[], clock)
  {
    assert forall key, start :: InWindow([], key, start) == {};
  }
}
