/** The sliding-window rate limiter (platform/internal/auth/ratelimit.go). Times are integers;
    the clock of a run never goes back. */
module RateLimit {
  import opened Text

  /** The entries later than the cutoff, in order. */
  function Keep(entries: seq<int>, cutoff: int): seq<int> {
    if entries == [] then []
    else (if entries[0] > cutoff then [entries[0]] else []) + Keep(entries[1..], cutoff)
  }

  type Table = map<string, seq<int>>

  function EntriesOf(table: Table, key: string): seq<int> {
    if key in table then table[key] else []
  }

  /** What one request does to the stored times, and whether it is let through. */
  function AllowStep(table: Table, limit: int, window: int, key: string, now: int): (Table, bool) {
    var valid := Keep(EntriesOf(table, key), now - window);
    if |valid| >= limit then (table[key := valid], false) else (table[key := valid + [now]], true)
  }

  function CleanupStep(table: Table, window: int, now: int): Table {
    map k | k in table && Keep(table[k], now - window) != [] :: Keep(table[k], now - window)
  }

  /** A Go slice: the first len elements of a backing array. */
  datatype Slice = Slice(buf: array<int>, len: nat)

  class RateLimiter {
    var requests: map<string, Slice>
    const limit: int
    const window: int
    ghost var Contents: Table  // the stored times of every key

    ghost function Buffers(): set<array<int>>
      reads this
    {
      set k | k in requests :: requests[k].buf
    }

    ghost predicate Holds(key: string)
      requires key in requests
      reads this, requests[key].buf
    {
      var s := requests[key];
      key in Contents && s.len <= s.buf.Length && s.buf[..s.len] == Contents[key]
    }

    ghost predicate Valid()
      reads this, Buffers()
    {
      && Contents.Keys == requests.Keys
      && (forall k | k in requests :: Holds(k))
      && (forall j, k | j in requests && k in requests && j != k :: requests[j].buf != requests[k].buf)
    }

    constructor (limit: int, window: int)
      ensures Valid() && Contents == map[]
      ensures this.limit == limit && this.window == window
    {
      this.limit, this.window := limit, window;
      requests, Contents := map[], map[];
    }

    /** Every key but this one is in order and keeps its array to itself. */
    ghost predicate ValidBut(key: string)
      reads this, Buffers()
    {
      && Contents.Keys == requests.Keys
      && (forall k | k in requests && k != key :: Holds(k))
      && (forall j, k | j in requests && k in requests && j != k :: requests[j].buf != requests[k].buf)
    }

    method Allow(key: string, now: int) returns (ok: bool)
      requires Valid()
      modifies this, Buffers()
      ensures Valid() && fresh(Buffers() - old(Buffers()))
      ensures (Contents, ok) == AllowStep(old(Contents), limit, window, key, now)
    {
      hide Keep, Holds, Valid, ValidBut;
      var cutoff := now - window;
      ghost var times := Keep(EntriesOf(Contents, key), cutoff);
      var valid := Expire(key, cutoff);
      if valid.len >= limit {
        Put(key, valid, times);
        ok := false;
      } else {
        PutGrown(key, valid, times, now);
        ok := true;
      }
    }

    /** The times of one key later than the cutoff, moved to the front of their array. */
    method Expire(key: string, cutoff: int) returns (valid: Slice)
      requires Valid()
      modifies if key in requests then {requests[key].buf} else {}
      ensures ValidBut(key)
      ensures valid.len <= valid.buf.Length && valid.buf[..valid.len] == Keep(EntriesOf(Contents, key), cutoff)
      ensures if key in requests then valid.buf == requests[key].buf else fresh(valid.buf)
      ensures forall k | k in requests && k != key :: requests[k].buf != valid.buf
    {
      hide Keep;
      var entries := Lookup(key);
      valid := Compact(entries, cutoff);
      assert forall k | k in requests && k != key :: old(Holds(k)) && requests[k].buf != valid.buf;
    }

    /** `rl.requests[key] = append(slice, now)` */
    method PutGrown(key: string, slice: Slice, ghost times: seq<int>, now: int)
      requires ValidBut(key)
      requires slice.len <= slice.buf.Length && slice.buf[..slice.len] == times
      requires forall k | k in requests && k != key :: requests[k].buf != slice.buf
      modifies this, slice.buf
      ensures Valid() && Contents == old(Contents)[key := times + [now]]
      ensures key in requests && requests == old(requests)[key := requests[key]]
      ensures requests[key].buf == slice.buf || fresh(requests[key].buf)
    {
      var grown := Append(slice, now);
      assert forall k | k in requests && k != key :: old(Holds(k));
      Put(key, grown, times + [now]);
    }

    /** `rl.requests[key]`: the zero value of a slice when the key is missing. */
    method Lookup(key: string) returns (entries: Slice)
      requires Valid()
      ensures entries.len <= entries.buf.Length && entries.buf[..entries.len] == EntriesOf(Contents, key)
      ensures if key in requests then entries == requests[key] else fresh(entries.buf)
    {
      if key in requests {
        assert Holds(key);
        entries := requests[key];
      } else {
        var none := new int[0];
        entries := Slice(none, 0);
      }
    }

    /** `delete(rl.requests, key)` */
    method Delete(key: string)
      requires ValidBut(key)
      modifies this
      ensures Valid() && Contents == old(Contents) - {key}
      ensures requests == old(requests) - {key}
    {
      requests := requests - {key};
      Contents := Contents - {key};
      assert forall k | k in requests :: old(Holds(k));
    }

    /** `rl.requests[key] = slice` */
    method Put(key: string, slice: Slice, ghost times: seq<int>)
      requires ValidBut(key)
      requires slice.len <= slice.buf.Length && slice.buf[..slice.len] == times
      requires forall k | k in requests && k != key :: requests[k].buf != slice.buf
      modifies this
      ensures Valid() && Contents == old(Contents)[key := times]
      ensures requests == old(requests)[key := slice]
    {
      requests := requests[key := slice];
      Contents := Contents[key := times];
      assert forall k | k in requests && k != key :: old(Holds(k));
    }

    /** Drops expired times in place; keys left without any are deleted. Go visits them in any order. */
    method Cleanup(now: int)
      requires Valid()
      modifies this, Buffers()
      ensures Valid() && Buffers() <= old(Buffers())
      ensures Contents == CleanupStep(old(Contents), window, now)
    {
      hide Holds, Keep, PartlySwept;
      var cutoff := now - window;
      SweepEnds(Contents, window, cutoff);
      var todo := requests.Keys;
      while todo != {}
        invariant Valid() && Buffers() <= old(Buffers()) && todo <= old(Contents).Keys
        invariant Contents == PartlySwept(old(Contents), todo, cutoff)
        decreases |todo|
      {
        var key :| key in todo;
        SweepOne(old(Contents), todo, key, cutoff);
        CleanupKey(key, cutoff);
        todo := todo - {key};
      }
    }

    /** The loop body for one key. */
    method CleanupKey(key: string, cutoff: int)
      requires Valid() && key in requests
      modifies this, requests[key].buf
      ensures Valid() && Buffers() <= old(Buffers())
      ensures var before := old(Contents); var valid := Keep(before[key], cutoff);
        Contents == if valid == [] then before - {key} else before[key := valid]
    {
      hide Keep;
      ghost var times := Keep(Contents[key], cutoff);
      var valid := Expire(key, cutoff);
      if valid.len == 0 {
        Delete(key);
      } else {
        Put(key, valid, times);
      }
    }
  }

  /** A sweep that has yet to visit the keys of todo. */
  function PartlySwept(table: Table, todo: set<string>, cutoff: int): Table {
    map k | k in table && (k in todo || Keep(table[k], cutoff) != []) ::
      if k in todo then table[k] else Keep(table[k], cutoff)
  }

  lemma SweepOne(table: Table, todo: set<string>, key: string, cutoff: int)
    requires key in todo && todo <= table.Keys
    ensures var now, valid := PartlySwept(table, todo, cutoff), Keep(table[key], cutoff);
      && todo <= now.Keys && now[key] == table[key]
      && PartlySwept(table, todo - {key}, cutoff) == if valid == [] then now - {key} else now[key := valid]
  {
    hide Keep;
  }

  lemma SweepEnds(table: Table, window: int, cutoff: int)
    ensures PartlySwept(table, table.Keys, cutoff) == table
    ensures PartlySwept(table, {}, cutoff) == CleanupStep(table, window, cutoff + window)
  {
    hide Keep;
  }

  /** The first w elements and what is still to be read together make up the result, and nothing
      unread has been overwritten. */
  ghost predicate PartlyCompacted(now: seq<int>, was: seq<int>, w: nat, r: nat, cutoff: int) {
    && w <= r <= |now| == |was|
    && now[..w] + Keep(was[r..], cutoff) == Keep(was, cutoff)
    && now[r..] == was[r..]
  }

  lemma CompactOne(now: seq<int>, was: seq<int>, w: nat, r: nat, cutoff: int)
    requires PartlyCompacted(now, was, w, r, cutoff) && r < |was|
    ensures now[r] == was[r]
    ensures if was[r] > cutoff then PartlyCompacted(now[w := was[r]], was, w + 1, r + 1, cutoff)
            else PartlyCompacted(now, was, w, r + 1, cutoff)
  {
    hide Keep;
    assert now[r] == now[r..][0] == was[r];
    assert now[r + 1..] == now[r..][1..] == was[r + 1..];
    KeepStep(was, r, cutoff);
    if was[r] > cutoff {
      var next := now[w := was[r]];
      assert next[..w + 1] == now[..w] + [was[r]] && next[r + 1..] == now[r + 1..];
      Assoc(now[..w], [was[r]], Keep(was[r + 1..], cutoff));
    } else {
      assert [] + Keep(was[r + 1..], cutoff) == Keep(was[r + 1..], cutoff);
    }
  }

  lemma CompactEnds(now: seq<int>, was: seq<int>, w: nat, cutoff: int)
    requires |now| == |was|
    ensures PartlyCompacted(was, was, 0, 0, cutoff)
    ensures PartlyCompacted(now, was, w, |was|, cutoff) ==> now[..w] == Keep(was, cutoff)
  {
    assert was[..0] + Keep(was[0..], cutoff) == Keep(was, cutoff);
  }

  /** The loop over `entries[:0]`: kept times move to the front of the same array. The write
      index never passes the read index, so no time is overwritten before it is read. */
  method Compact(entries: Slice, cutoff: int) returns (valid: Slice)
    requires entries.len <= entries.buf.Length
    modifies entries.buf
    ensures valid.buf == entries.buf && valid.len <= entries.len
    ensures valid.buf[..valid.len] == Keep(old(entries.buf[..entries.len]), cutoff)
  {
    var buf, len, w := entries.buf, entries.len, 0;
    ghost var was := buf[..len];
    CompactEnds(was, was, 0, cutoff);
    for r := 0 to len
      invariant w <= r && PartlyCompacted(buf[..len], was, w, r, cutoff)
    {
      hide PartlyCompacted;
      ghost var now := buf[..len];
      CompactOne(now, was, w, r, cutoff);
      var t := buf[r];
      if t > cutoff {
        buf[w] := t;
        assert buf[..len] == now[w := t];
        w := w + 1;
      }
    }
    CompactEnds(buf[..len], was, w, cutoff);
    assert buf[..len][..w] == buf[..w];
    valid := Slice(buf, w);
  }

  lemma KeepStep(s: seq<int>, r: nat, cutoff: int)
    requires r < |s|
    ensures Keep(s[r..], cutoff) == (if s[r] > cutoff then [s[r]] else []) + Keep(s[r + 1..], cutoff)
  {
    assert s[r..][1..] == s[r + 1..];
  }

  /** Go's append: in place while there is room, otherwise into a larger array. */
  method Append(s: Slice, t: int) returns (r: Slice)
    requires s.len <= s.buf.Length
    modifies s.buf
    ensures r.len == s.len + 1 <= r.buf.Length && r.buf[..r.len] == old(s.buf[..s.len]) + [t]
    ensures r.buf == s.buf || fresh(r.buf)
  {
    ghost var was := s.buf[..s.len];
    if s.len < s.buf.Length {
      s.buf[s.len] := t;
      r := Slice(s.buf, s.len + 1);
      assert s.buf[..s.len] == was;
    } else {
      var buf := new int[2 * s.len + 1];
      for i := 0 to s.len
        invariant buf[..i] == was[..i] && s.buf[..s.len] == was
      {
        buf[i] := s.buf[i];
        assert was[i] == s.buf[..s.len][i];
      }
      buf[s.len] := t;
      r := Slice(buf, s.len + 1);
      assert buf[..s.len] == was;
    }
    assert r.buf[..r.len] == r.buf[..s.len] + [t];
  }

  // ----- Runs -----

  datatype Event = Request(key: string, now: int) | Sweep(now: int)

  predicate ClockRuns(es: seq<Event>) {
    forall i, j | 0 <= i < j < |es| :: es[i].now <= es[j].now
  }

  /** What the limiter stores after a run. */
  function Stored(es: seq<Event>, limit: int, window: int): Table {
    if es == [] then map[]
    else
      var table := Stored(es[..|es| - 1], limit, window);
      match es[|es| - 1]
      case Request(key, now) => AllowStep(table, limit, window, key, now).0
      case Sweep(now) => CleanupStep(table, window, now)
  }

  /** The times at which the limiter let a request of the key through. */
  function Accepted(es: seq<Event>, limit: int, window: int, key: string): seq<int> {
    if es == [] then []
    else
      var before, e := es[..|es| - 1], es[|es| - 1];
      Accepted(before, limit, window, key) +
      if e.Request? && e.key == key && AllowStep(Stored(before, limit, window), limit, window, key, e.now).1
      then [e.now] else []
  }

  /** A limiter that forgets nothing: it counts the accepted requests later than now - window. */
  function FullHistory(es: seq<Event>, limit: int, window: int, key: string): seq<int> {
    if es == [] then []
    else
      var before, e := es[..|es| - 1], es[|es| - 1];
      var history := FullHistory(before, limit, window, key);
      if e.Request? && e.key == key && |Keep(history, e.now - window)| < limit then history + [e.now] else history
  }

  lemma {:induction false} KeepAppend(a: seq<int>, b: seq<int>, cutoff: int)
    ensures Keep(a + b, cutoff) == Keep(a, cutoff) + Keep(b, cutoff)
  {
    if a == [] {
      assert a + b == b;
    } else {
      KeepAppend(a[1..], b, cutoff);
      assert (a + b)[1..] == a[1..] + b;
      Assoc(if a[0] > cutoff then [a[0]] else [], Keep(a[1..], cutoff), Keep(b, cutoff));
    }
  }

  /** Dropping old times early loses nothing a later, stricter cutoff would keep. */
  lemma {:induction false} KeepTwice(s: seq<int>, early: int, late: int)
    requires early <= late
    ensures Keep(Keep(s, early), late) == Keep(s, late)
  {
    if s != [] {
      KeepTwice(s[1..], early, late);
      KeepAppend(if s[0] > early then [s[0]] else [], Keep(s[1..], early), late);
    }
  }

  /** Under every cutoff still to come, the stored times of a key count the same as all its
      accepted times. */
  lemma {:induction false} StoredMatchesAccepted(es: seq<Event>, limit: int, window: int, key: string, cutoff: int)
    requires ClockRuns(es)
    requires es != [] ==> cutoff >= es[|es| - 1].now - window
    ensures Keep(EntriesOf(Stored(es, limit, window), key), cutoff) == Keep(Accepted(es, limit, window, key), cutoff)
  {
    hide Keep;
    if es != [] {
      var before, e := es[..|es| - 1], es[|es| - 1];
      var table, accepted := Stored(before, limit, window), Accepted(before, limit, window, key);
      StoredMatchesAccepted(before, limit, window, key, cutoff);
      if e.Request? && e.key == key {
        RequestMatches(table, accepted, limit, window, key, e.now, cutoff);
      } else {
        OtherEventMatches(table, window, e, key, cutoff);
        assert accepted + [] == accepted;
      }
    }
  }

  lemma RequestMatches(table: Table, accepted: seq<int>, limit: int, window: int, key: string, now: int, cutoff: int)
    requires Keep(EntriesOf(table, key), cutoff) == Keep(accepted, cutoff) && cutoff >= now - window
    ensures var (after, ok) := AllowStep(table, limit, window, key, now);
      Keep(EntriesOf(after, key), cutoff) == Keep(accepted + (if ok then [now] else []), cutoff)
  {
    hide Keep;
    var entries := EntriesOf(table, key);
    KeepTwice(entries, now - window, cutoff);
    KeepAppend(Keep(entries, now - window), [now], cutoff);
    KeepAppend(accepted, [now], cutoff);
    assert accepted + [] == accepted;
  }

  lemma OtherEventMatches(table: Table, window: int, e: Event, key: string, cutoff: int)
    requires cutoff >= e.now - window && (e.Request? ==> e.key != key)
    ensures e.Sweep? ==>
      Keep(EntriesOf(CleanupStep(table, window, e.now), key), cutoff) == Keep(EntriesOf(table, key), cutoff)
  {
    KeepTwice(EntriesOf(table, key), e.now - window, cutoff);
  }

  /** The limiter with its compaction and its sweeps accepts exactly what the limiter that
      forgets nothing accepts. */
  lemma {:induction false} RefinesFullHistory(es: seq<Event>, limit: int, window: int, key: string)
    requires ClockRuns(es)
    ensures Accepted(es, limit, window, key) == FullHistory(es, limit, window, key)
  {
    if es != [] {
      var before, e := es[..|es| - 1], es[|es| - 1];
      RefinesFullHistory(before, limit, window, key);
      if e.Request? && e.key == key {
        StoredMatchesAccepted(before, limit, window, key, e.now - window);
      }
    }
  }

  /** How many of the times lie in (upto - window, upto]. */
  function InWindow(times: seq<int>, window: int, upto: int): nat {
    if times == [] then 0
    else InWindow(times[..|times| - 1], window, upto)
         + (if upto - window < times[|times| - 1] <= upto then 1 else 0)
  }

  /** Later than the cutoff is an upper bound for the window that starts there. */
  lemma {:induction false} WindowWithinKeep(times: seq<int>, window: int, upto: int, cutoff: int)
    requires cutoff <= upto - window
    ensures InWindow(times, window, upto) <= |Keep(times, cutoff)|
  {
    if times != [] {
      var init, last := times[..|times| - 1], times[|times| - 1];
      WindowWithinKeep(init, window, upto, cutoff);
      KeepAppend(init, [last], cutoff);
      assert init + [last] == times;
    }
  }

  /** The bound: in every run, for every key and every instant, at most `limit` requests were
      let through in the window that ends at that instant. */
  lemma {:induction false} RateBound(es: seq<Event>, limit: int, window: int, key: string, upto: int)
    requires ClockRuns(es)
    ensures InWindow(Accepted(es, limit, window, key), window, upto) <= if limit > 0 then limit else 0
  {
    hide Keep, AllowStep, InWindow, EntriesOf;
    if es != [] {
      var before, e := es[..|es| - 1], es[|es| - 1];
      var table, accepted := Stored(before, limit, window), Accepted(before, limit, window, key);
      RateBound(before, limit, window, key, upto);
      if e.Request? && e.key == key && AllowStep(table, limit, window, key, e.now).1 {
        StoredMatchesAccepted(before, limit, window, key, e.now - window);
        OneMore(table, accepted, limit, window, key, e.now, upto);
      } else {
        assert accepted + [] == accepted;
      }
    } else {
      assert InWindow([], window, upto) == 0 by { NothingInWindow(window, upto); }
    }
  }

  lemma NothingInWindow(window: int, upto: int)
    ensures InWindow([], window, upto) == 0
  {
  }

  lemma OneMore(table: Table, accepted: seq<int>, limit: int, window: int, key: string, now: int, upto: int)
    requires AllowStep(table, limit, window, key, now).1
    requires Keep(EntriesOf(table, key), now - window) == Keep(accepted, now - window)
    requires InWindow(accepted, window, upto) <= if limit > 0 then limit else 0
    ensures InWindow(accepted + [now], window, upto) <= limit
  {
    assert (accepted + [now])[..|accepted|] == accepted;
    if now <= upto {
      WindowWithinKeep(accepted, window, upto, now - window);
    }
  }

  // ----- What is stored -----

  /** After a request the limiter stores exactly the accepted times of its key still in the window. */
  lemma StoredAfterRequest(es: seq<Event>, limit: int, window: int, key: string)
    requires ClockRuns(es) && window > 0
    requires es != [] && es[|es| - 1].Request? && es[|es| - 1].key == key
    ensures var table := Stored(es, limit, window);
      key in table && table[key] == Keep(Accepted(es, limit, window, key), es[|es| - 1].now - window)
  {
    hide Keep, ClockRuns, EntriesOf, AllowStep;
    EarlierClockRuns(es);
    AllowStores(Stored(es[..|es| - 1], limit, window), limit, window, key, es[|es| - 1].now);
    var before, now := es[..|es| - 1], es[|es| - 1].now;
    var accepted := Accepted(before, limit, window, key);
    StoredMatchesAccepted(before, limit, window, key, now - window);
    KeepAppend(accepted, [now], now - window);
    KeepOne(now, now - window);
    assert accepted + [] == accepted;
  }

  lemma AllowStores(table: Table, limit: int, window: int, key: string, now: int)
    ensures var (after, ok) := AllowStep(table, limit, window, key, now);
      key in after && after[key] == Keep(EntriesOf(table, key), now - window) + if ok then [now] else []
  {
    hide Keep;
    var valid := Keep(EntriesOf(table, key), now - window);
    assert valid + [] == valid;
  }

  lemma KeepOne(t: int, cutoff: int)
    ensures Keep([t], cutoff) == if t > cutoff then [t] else []
  {
    assert [t][1..] == [];
  }

  predicate AnyAfter(times: seq<int>, cutoff: int) {
    exists i :: 0 <= i < |times| && times[i] > cutoff
  }

  /** After a sweep exactly the keys with an accepted time still in the window are left, with those times. */
  lemma StoredAfterSweep(es: seq<Event>, limit: int, window: int, key: string)
    requires ClockRuns(es) && es != [] && es[|es| - 1].Sweep?
    ensures var table, cutoff := Stored(es, limit, window), es[|es| - 1].now - window;
      var accepted := Accepted(es, limit, window, key);
      && (key in table <==> AnyAfter(accepted, cutoff))
      && (key in table ==> table[key] == Keep(accepted, cutoff))
  {
    hide Keep, CleanupStep, ClockRuns, EntriesOf, AnyAfter;
    var before, now := es[..|es| - 1], es[|es| - 1].now;
    var accepted := Accepted(before, limit, window, key);
    EarlierClockRuns(es);
    StoredMatchesAccepted(before, limit, window, key, now - window);
    assert accepted + [] == accepted;
    SweepKeeps(Stored(before, limit, window), window, now, key);
    KeepsSome(accepted, now - window);
  }

  lemma EarlierClockRuns(es: seq<Event>)
    requires ClockRuns(es) && es != []
    ensures var before := es[..|es| - 1];
      ClockRuns(before) && (before != [] ==> before[|before| - 1].now <= es[|es| - 1].now)
  {
  }

  lemma SweepKeeps(table: Table, window: int, now: int, key: string)
    ensures var kept := Keep(EntriesOf(table, key), now - window);
      && (key in CleanupStep(table, window, now) <==> kept != [])
      && (kept != [] ==> CleanupStep(table, window, now)[key] == kept)
  {
    hide Keep;
    KeepsSome([], now - window);
  }

  lemma {:induction false} KeepsSome(s: seq<int>, cutoff: int)
    ensures Keep(s, cutoff) != [] <==> AnyAfter(s, cutoff)
  {
    if s != [] {
      KeepsSome(s[1..], cutoff);
      if i :| 0 <= i < |s| && s[i] > cutoff {
        assert i > 0 ==> s[1..][i - 1] == s[i];
      }
      if i :| 0 <= i < |s[1..]| && s[1..][i] > cutoff {
        assert s[i + 1] > cutoff;
      }
    }
  }
}
