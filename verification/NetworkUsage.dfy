/** The traffic totals of the agent: what the network counters add up to in the
    current day and month, kept in a state that is saved after every sample.

    Counters and totals are 64-bit words, and additions wrap around. A day is a
    number; the month of a day is a function of the day. */
module NetworkUsage {
  import opened Prelude

  const WORD: nat := 0x1_0000_0000_0000_0000

  type Word = n: nat | n < WORD

  function Add(a: Word, b: Word): Word {
    (a + b) % WORD
  }

  datatype Counters = Counters(sent: Word, received: Word)

  /** Totals of one period, in both directions. */
  datatype Totals = Totals(upload: Word, download: Word)

  const ZERO := Totals(0, 0)

  datatype Usage = Usage(
    day: Option<int>,
    month: Option<int>,
    today: Totals,
    thisMonth: Totals,
    previous: Counters,
    initialized: bool)

  const EMPTY := Usage(None, None, ZERO, ZERO, Counters(0, 0), false)

  /** The traffic since the counters stood at `before`. */
  function Grown(totals: Totals, before: Counters, now: Counters): Totals
    requires before.sent <= now.sent && before.received <= now.received
  {
    Totals(Add(totals.upload, now.sent - before.sent), Add(totals.download, now.received - before.received))
  }

  /** rollPeriod */
  function Rolled(u: Usage, day: int, month: int): Usage {
    u.(thisMonth := if u.month != Some(month) then ZERO else u.thisMonth,
       today := if u.day != Some(day) then ZERO else u.today)
  }

  predicate Counts(u: Usage, c: Counters) {
    u.initialized && u.previous.sent <= c.sent && u.previous.received <= c.received
  }

  /** The state after one sample. */
  function Sampled(u: Usage, day: int, month: int, c: Counters): Usage {
    var rolled := Rolled(u, day, month);
    var counted :=
      if Counts(rolled, c) then
        rolled.(today := Grown(rolled.today, rolled.previous, c),
                thisMonth := Grown(rolled.thisMonth, rolled.previous, c))
      else rolled;
    counted.(day := Some(day), month := Some(month), previous := c, initialized := true)
  }

  // ---- What was really transferred -----------------------------------------------------

  /** Without the limit of a word, and by its own account of the last sample. */
  datatype Truth = Truth(
    day: Option<int>,
    last: Option<Counters>,
    todayUp: nat,
    todayDown: nat,
    monthUp: nat,
    monthDown: nat)

  const NOTHING := Truth(None, None, 0, 0, 0, 0)

  /** What the counters grew by since the last sample belongs to the day and the month of this one; what is
      before a fall of a counter is lost. */
  function Accounted(t: Truth, monthOf: int -> int, day: int, c: Counters): Truth {
    var steady := t.last.Some? && t.last.value.sent <= c.sent && t.last.value.received <= c.received;
    var up := if steady then c.sent - t.last.value.sent else 0;
    var down := if steady then c.received - t.last.value.received else 0;
    var sameDay := t.day == Some(day);
    var sameMonth := t.day.Some? && monthOf(t.day.value) == monthOf(day);
    Truth(Some(day), Some(c),
          (if sameDay then t.todayUp else 0) + up, (if sameDay then t.todayDown else 0) + down,
          (if sameMonth then t.monthUp else 0) + up, (if sameMonth then t.monthDown else 0) + down)
  }

  /** The stored totals are the true ones up to whole words, and no day has more than its month. */
  predicate Sums(today: Totals, thisMonth: Totals, t: Truth) {
    && today == Totals(t.todayUp % WORD, t.todayDown % WORD)
    && thisMonth == Totals(t.monthUp % WORD, t.monthDown % WORD)
    && t.todayUp <= t.monthUp && t.todayDown <= t.monthDown
  }

  /** And they are those of the right day, counted from the right sample. */
  predicate Tallies(u: Usage, t: Truth, monthOf: int -> int) {
    && Sums(u.today, u.thisMonth, t) && u.day == t.day
    && u.month == (if t.day.Some? then Some(monthOf(t.day.value)) else None)
    && t.last == (if u.initialized then Some(u.previous) else None)
  }

  lemma AddModulo(stored: Word, total: nat, more: Word)
    requires stored == total % WORD
    ensures Add(stored, more) == (total + more) % WORD
  {
  }

  /** What is left of a truth at a day. */
  function Kept(t: Truth, monthOf: int -> int, day: int): Truth {
    var sameDay := t.day == Some(day);
    var sameMonth := t.day.Some? && monthOf(t.day.value) == monthOf(day);
    t.(todayUp := if sameDay then t.todayUp else 0, todayDown := if sameDay then t.todayDown else 0,
       monthUp := if sameMonth then t.monthUp else 0, monthDown := if sameMonth then t.monthDown else 0)
  }

  lemma RolledSums(u: Usage, t: Truth, monthOf: int -> int, day: int)
    requires Tallies(u, t, monthOf)
    ensures var rolled := Rolled(u, day, monthOf(day));
            && Sums(rolled.today, rolled.thisMonth, Kept(t, monthOf, day))
            && rolled.previous == u.previous && rolled.initialized == u.initialized
  {
  }

  lemma GrownSums(today: Totals, thisMonth: Totals, t: Truth, before: Counters, c: Counters)
    requires Sums(today, thisMonth, t) && before.sent <= c.sent && before.received <= c.received
    ensures var (up, down) := (c.sent - before.sent, c.received - before.received);
            Sums(Grown(today, before, c), Grown(thisMonth, before, c),
                 t.(todayUp := t.todayUp + up, todayDown := t.todayDown + down,
                    monthUp := t.monthUp + up, monthDown := t.monthDown + down))
  {
    hide Add;
    AddModulo(today.upload, t.todayUp, c.sent - before.sent);
    AddModulo(today.download, t.todayDown, c.received - before.received);
    AddModulo(thisMonth.upload, t.monthUp, c.sent - before.sent);
    AddModulo(thisMonth.download, t.monthDown, c.received - before.received);
  }

  /** One sample keeps the stored totals in step with the true ones. */
  lemma SampleTallies(u: Usage, t: Truth, monthOf: int -> int, day: int, c: Counters)
    requires Tallies(u, t, monthOf)
    ensures Tallies(Sampled(u, day, monthOf(day), c), Accounted(t, monthOf, day, c), monthOf)
  {
    hide Sums, Grown;
    var rolled := Rolled(u, day, monthOf(day));
    var kept := Kept(t, monthOf, day);
    RolledSums(u, t, monthOf, day);
    if Counts(u, c) {
      GrownSums(rolled.today, rolled.thisMonth, kept, u.previous, c);
    }
    var after := Sampled(u, day, monthOf(day), c);
    var grown := Accounted(t, monthOf, day, c);
    SumsOnly(after.today, after.thisMonth, grown.(day := kept.day, last := kept.last), grown);
  }

  lemma SumsOnly(today: Totals, thisMonth: Totals, t: Truth, v: Truth)
    requires v.todayUp == t.todayUp && v.todayDown == t.todayDown
    requires v.monthUp == t.monthUp && v.monthDown == t.monthDown
    ensures Sums(today, thisMonth, t) <==> Sums(today, thisMonth, v)
  {
  }

  predicate WithinWords(t: Truth) {
    t.monthUp < WORD && t.monthDown < WORD
  }

  predicate TodayWithinMonth(u: Usage) {
    u.today.upload <= u.thisMonth.upload && u.today.download <= u.thisMonth.download
  }

  lemma TalliesWithinWords(u: Usage, t: Truth, monthOf: int -> int)
    requires Tallies(u, t, monthOf) && WithinWords(t)
    ensures u.today == Totals(t.todayUp, t.todayDown) && u.thisMonth == Totals(t.monthUp, t.monthDown)
    ensures TodayWithinMonth(u)
  {
  }

  // ---- One day -------------------------------------------------------------------------

  /** Sample k of a day starts from any state saved earlier that day: the last one, or, after lost saves
      and restarts, an older one. */
  ghost predicate DayOfSamples(states: seq<Usage>, origins: seq<nat>, day: int, month: int) {
    && |states| == |origins| + 1
    && states[0].day == Some(day) && states[0].month == Some(month) && states[0].initialized
    && forall k :: 0 <= k < |origins| ==>
         && origins[k] <= k
         && Counts(states[origins[k]], states[k + 1].previous)
         && states[k + 1] == Sampled(states[origins[k]], day, month, states[k + 1].previous)
  }

  lemma Telescope(t: Word, p: Word, q: Word, r: Word)
    requires p <= q
    ensures (Add(t, q - p) - q + WORD) % WORD == (t - p + WORD) % WORD
  {
    assert t + (q - p) < WORD ==> Add(t, q - p) == t + (q - p);
    assert t + (q - p) >= WORD ==> Add(t, q - p) == t + (q - p) - WORD;
  }

  function Offset(total: Word, counter: Word): Word {
    (total - counter + WORD) % WORD
  }

  lemma {:induction false} OffsetsAgree(states: seq<Usage>, origins: seq<nat>, day: int, month: int, k: nat)
    requires DayOfSamples(states, origins, day, month) && k < |states|
    ensures states[k].day == Some(day) && states[k].month == Some(month)
    ensures Offset(states[k].today.upload, states[k].previous.sent) ==
      Offset(states[0].today.upload, states[0].previous.sent)
    ensures Offset(states[k].today.download, states[k].previous.received) ==
      Offset(states[0].today.download, states[0].previous.received)
  {
    if k > 0 {
      var j := origins[k - 1];
      OffsetsAgree(states, origins, day, month, j);
      var (u, v) := (states[j], states[k]);
      Telescope(u.today.upload, u.previous.sent, v.previous.sent, 0);
      Telescope(u.today.download, u.previous.received, v.previous.received, 0);
    }
  }

  lemma FromOffset(a: Word, b: Word, p: Word, q: Word)
    requires Offset(b, q) == Offset(a, p) && p <= q
    ensures b == Add(a, q - p)
  {
  }

  /** As long as the day lasts and the counters do not fall, today's total grows by exactly what the counters
      grew, however many samples, lost saves and restarts lie between. */
  lemma TodayIsTheCounterDifference(states: seq<Usage>, origins: seq<nat>, day: int, month: int, k: nat)
    requires DayOfSamples(states, origins, day, month) && k < |states|
    requires states[0].previous.sent <= states[k].previous.sent
    requires states[0].previous.received <= states[k].previous.received
    ensures states[k].today == Grown(states[0].today, states[0].previous, states[k].previous)
  {
    OffsetsAgree(states, origins, day, month, k);
    FromOffset(states[0].today.upload, states[k].today.upload, states[0].previous.sent, states[k].previous.sent);
    FromOffset(states[0].today.download, states[k].today.download, states[0].previous.received,
               states[k].previous.received);
  }

  // ---- The sampler ------------------------------------------------------------------------

  /** Megabytes per second, without the rounding of floating point. */
  datatype Rates = Rates(upload: real, download: real)

  datatype Snapshot = Unavailable | Snapshot(day: int, today: Totals, thisMonth: Totals, rates: Rates)

  const NO_RATES := Rates(0.0, 0.0)

  /** A duration in nanoseconds, in seconds. */
  function Seconds(duration: int): real {
    duration as real / 1_000_000_000.0
  }

  /** The bytes moved in some seconds at a rate. */
  function Moved(rate: real, seconds: real): real {
    rate * seconds * 1_000_000.0
  }

  lemma RateTimesTime(bytes: nat, seconds: real)
    requires seconds > 0.0
    ensures Moved(bytes as real / seconds / 1_000_000.0, seconds) == bytes as real
  {
    var perSecond := bytes as real / seconds;
    assert perSecond / 1_000_000.0 * seconds * 1_000_000.0 == perSecond * seconds;
  }

  class Sampler {
    const monthOf: int -> int
    var loaded: bool
    var state: Usage
    var saved: seq<Usage>          // what the file has held, the latest last
    var rateReady: bool
    var ratePrevious: Counters
    var rateSampledAt: int         // in nanoseconds
    ghost var truth: Truth
    ghost var truths: seq<Truth>   // of the saved states

    ghost predicate Valid()
      reads this
    {
      && (if loaded then Tallies(state, truth, monthOf) else state == EMPTY)
      && (rateReady ==> loaded && state.initialized && state.previous == ratePrevious)
      && |truths| == |saved| && forall i :: 0 <= i < |saved| ==> Tallies(saved[i], truths[i], monthOf)
    }

    /** A rate can be given: time has passed since a sample of this process, and no counter has fallen. */
    predicate Measurable(c: Counters, at: int)
      reads this
    {
      rateReady && at > rateSampledAt && c.sent >= ratePrevious.sent && c.received >= ratePrevious.received
    }

    constructor (monthOf: int -> int)
      ensures Valid() && !loaded && !rateReady && saved == [] && this.monthOf == monthOf
    {
      this.monthOf := monthOf;
      loaded, state, saved, truth, truths := false, EMPTY, [], NOTHING, [];
      rateReady, ratePrevious, rateSampledAt := false, Counters(0, 0), 0;
    }

    /** The agent starts anew; its file holds any state it ever held. */
    method Restart()
      requires Valid()
      modifies this
      ensures Valid() && !loaded && !rateReady && saved == old(saved) && truths == old(truths)
    {
      loaded, state, rateReady := false, EMPTY, false;
    }

    /** A missing or unreadable file reads as the empty state. */
    method LoadState() returns (ghost origin: Option<nat>)
      requires Valid()
      modifies this`loaded, this`state, this`truth
      ensures Valid() && loaded
      ensures old(loaded) ==> state == old(state) && truth == old(truth)
      ensures !old(loaded) && origin.None? ==> state == EMPTY && truth == NOTHING
      ensures !old(loaded) && origin.Some? ==>
                origin.value < |saved| && state == saved[origin.value] && truth == truths[origin.value]
    {
      origin := None;
      if loaded {
        return;
      }
      loaded := true;
      var i: nat := *;
      if 0 <= i < |saved| {
        state := saved[i];
        truth := truths[i];
        origin := Some(i);
        return;
      }
      state, truth := EMPTY, NOTHING;
    }

    method RollPeriod(day: int, month: int)
      modifies this`state
      ensures state == Rolled(old(state), day, month)
    {
      if state.month != Some(month) {
        state := state.(thisMonth := ZERO);
      }
      if state.day != Some(day) {
        state := state.(today := ZERO);
      }
    }

    /** The part of Sample that changes the totals. */
    method Advance(day: int, c: Counters)
      modifies this`state
      ensures state == Sampled(old(state), day, monthOf(day), c)
    {
      var month := monthOf(day);
      RollPeriod(day, month);
      if state.initialized && c.sent >= state.previous.sent && c.received >= state.previous.received {
        var sent: Word, received: Word := c.sent - state.previous.sent, c.received - state.previous.received;
        state := state.(today := Totals(Add(state.today.upload, sent), Add(state.today.download, received)),
                        thisMonth :=
                          Totals(Add(state.thisMonth.upload, sent), Add(state.thisMonth.download, received)));
      }
      state := state.(day := Some(day), month := Some(month), previous := c, initialized := true);
    }

    /** What was moved since the last sample, over the time between; nothing in all other cases. */
    method SampleRate(c: Counters, at: int) returns (r: Rates)
      modifies this`rateReady, this`ratePrevious, this`rateSampledAt
      ensures rateReady && ratePrevious == c && rateSampledAt == at
      ensures !old(Measurable(c, at)) ==> r == NO_RATES
      ensures old(Measurable(c, at)) ==>
                var seconds := Seconds(at - old(rateSampledAt));
                && Moved(r.upload, seconds) == (c.sent - old(ratePrevious).sent) as real
                && Moved(r.download, seconds) == (c.received - old(ratePrevious).received) as real
    {
      if !rateReady || at <= rateSampledAt || c.sent < ratePrevious.sent || c.received < ratePrevious.received {
        ratePrevious, rateSampledAt, rateReady := c, at, true;
        return NO_RATES;
      }
      var seconds := Seconds(at - rateSampledAt);
      r := Rates((c.sent - ratePrevious.sent) as real / seconds / 1_000_000.0,
                 (c.received - ratePrevious.received) as real / seconds / 1_000_000.0);
      RateTimesTime(c.sent - ratePrevious.sent, seconds);
      RateTimesTime(c.received - ratePrevious.received, seconds);
      ratePrevious, rateSampledAt := c, at;
    }

    /** A failed read changes nothing; otherwise the totals are those of one more sample, and a save that
        fails only loses the checkpoint. */
    method Sample(read: Option<Counters>, at: int, day: int, saves: bool)
      returns (r: Snapshot, ghost before: Usage, ghost known: Truth)
      requires Valid()
      modifies this
      ensures Valid()
      ensures read.None? ==> r == Unavailable && state == old(state) && saved == old(saved) && loaded == old(loaded)
      ensures read.Some? ==>
                && Tallies(before, known, monthOf)
                && (if old(loaded) then before == old(state) && known == old(truth)
                    else before == EMPTY || before in old(saved))
                && state.day == Some(day) && state.month == Some(monthOf(day))
                && state.initialized && state.previous == read.value
                && loaded && state == Sampled(before, day, monthOf(day), read.value)
                && truth == Accounted(known, monthOf, day, read.value)
                && r.Snapshot? && r.day == day && r.today == state.today && r.thisMonth == state.thisMonth
                && saved == (if saves then old(saved) + [state] else old(saved))
                && (WithinWords(truth) ==> TodayWithinMonth(state))
      ensures read.Some? && !old(Measurable(read.value, at)) ==> r.rates == NO_RATES
      // the rates and the totals tell of the same traffic
      ensures read.Some? && old(Measurable(read.value, at)) ==>
                var seconds := Seconds(at - old(rateSampledAt));
                var sent := read.value.sent - old(ratePrevious).sent;
                var received := read.value.received - old(ratePrevious).received;
                && Moved(r.rates.upload, seconds) == sent as real
                && Moved(r.rates.download, seconds) == received as real
                && var rolled := Rolled(old(state), day, monthOf(day));
                   r.today == Totals(Add(rolled.today.upload, sent), Add(rolled.today.download, received))
    {
      hide Tallies, Accounted, Moved, Seconds;
      before, known := state, truth;
      if read.None? {
        return Unavailable, before, known;
      }
      var c := read.value;
      ghost var origin := LoadState();
      before, known := state, truth;
      LoadedTallies();
      Advance(day, c);
      truth := Accounted(known, monthOf, day, c);
      SampleTallies(before, known, monthOf, day, c);
      if WithinWords(truth) {
        TalliesWithinWords(state, truth, monthOf);
      }
      var rates := SampleRate(c, at);
      if saves {
        saved, truths := saved + [state], truths + [truth];
      }
      r := Snapshot(day, state.today, state.thisMonth, rates);
    }

    lemma LoadedTallies()
      requires Valid() && loaded
      ensures Tallies(state, truth, monthOf)
    {
    }
  }
}
