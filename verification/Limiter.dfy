/** The sliding-window rate limiter: per ip, a slice of recent call times that is filtered in place. */
module Limiters {
  import opened Common

  // --- What the limiter means ---

  /** The times later than cutoff, in order. */
  function Recent(times: seq<int>, cutoff: int): seq<int> {
    if times == [] then []
    else
      var rest, t := times[..|times| - 1], times[|times| - 1];
      Recent(rest, cutoff) + if t > cutoff then [t] else []
  }

  function Get(m: map<string, seq<int>>, ip: string): seq<int> {
    if ip in m then m[ip] else []
  }

  /** One call against the full, never pruned history of allowed calls: allowed iff fewer than max of
      them lie in (now - window, now]. */
  function Serve(history: seq<int>, now: int, max: int, window: int): seq<int> {
    if |Recent(history, now - window)| < max then history + [now] else history
  }

  /** The allowed calls among calls. */
  function ServeAll(calls: seq<int>, max: int, window: int): seq<int> {
    if calls == [] then []
    else Serve(ServeAll(calls[..|calls| - 1], max, window), calls[|calls| - 1], max, window)
  }

  /** Every call in history was allowed by the rule. */
  ghost predicate Admissible(history: seq<int>, max: int, window: int) {
    history == [] ||
    var rest, t := history[..|history| - 1], history[|history| - 1];
    Admissible(rest, max, window) && |Recent(rest, t - window)| < max
  }

  lemma ServeAllSnoc(calls: seq<int>, now: int, max: int, window: int)
    ensures ServeAll(calls + [now], max, window) == Serve(ServeAll(calls, max, window), now, max, window)
  {
    hide Serve;
    var longer := calls + [now];
    assert longer[..|longer| - 1] == calls && longer[|longer| - 1] == now;
  }

  /** A call is recorded iff it is allowed, which is iff fewer than max recorded ones are in its window. */
  lemma ServedIff(calls: seq<int>, now: int, max: int, window: int)
    ensures var history := ServeAll(calls, max, window);
            ServeAll(calls + [now], max, window)
            == if |Recent(history, now - window)| < max then history + [now] else history
  {
    ServeAllSnoc(calls, now, max, window);
    hide Recent, ServeAll;
  }

  lemma ServeKeepsAdmissible(history: seq<int>, now: int, max: int, window: int)
    requires Admissible(history, max, window)
    ensures Admissible(Serve(history, now, max, window), max, window)
  {
    assert (history + [now])[..|history|] == history;
  }

  lemma {:induction false} RunIsAdmissible(calls: seq<int>, max: int, window: int)
    ensures Admissible(ServeAll(calls, max, window), max, window)
    decreases |calls|
  {
    if calls != [] {
      RunIsAdmissible(calls[..|calls| - 1], max, window);
      ServeKeepsAdmissible(ServeAll(calls[..|calls| - 1], max, window), calls[|calls| - 1], max, window);
    }
  }

  /** How many times lie in [lo, hi). */
  function CountIn(times: seq<int>, lo: int, hi: int): nat {
    if times == [] then 0
    else CountIn(times[..|times| - 1], lo, hi) + if lo <= times[|times| - 1] < hi then 1 else 0
  }

  lemma {:induction false} CountedAreRecent(times: seq<int>, lo: int, hi: int, cutoff: int)
    requires cutoff < lo
    ensures CountIn(times, lo, hi) <= |Recent(times, cutoff)|
    decreases |times|
  {
    if times != [] {
      CountedAreRecent(times[..|times| - 1], lo, hi, cutoff);
    }
  }

  /** In whatever order calls arrive, no interval [lo, lo + window) holds more than max allowed calls. */
  lemma {:induction false} AdmissibleBound(history: seq<int>, max: int, window: int, lo: int)
    requires Admissible(history, max, window)
    ensures CountIn(history, lo, lo + window) <= if max > 0 then max else 0
    decreases |history|
  {
    if history != [] {
      var k := |history| - 1;
      AdmissibleBound(history[..k], max, window, lo);
      if lo <= history[k] < lo + window {
        CountedAreRecent(history[..k], lo, lo + window, history[k] - window);
      }
    }
  }

  /** The bound for whole runs. (lo, lo + window] is [lo + 1, lo + 1 + window) on integral time. */
  lemma WindowBound(calls: seq<int>, max: int, window: int, lo: int)
    ensures CountIn(ServeAll(calls, max, window), lo, lo + window) <= if max > 0 then max else 0
  {
    RunIsAdmissible(calls, max, window);
    AdmissibleBound(ServeAll(calls, max, window), max, window, lo);
  }

  // --- Pruning ---

  lemma RecentSnoc(times: seq<int>, t: int, cutoff: int)
    ensures Recent(times + [t], cutoff) == Recent(times, cutoff) + if t > cutoff then [t] else []
  {
    assert (times + [t])[..|times|] == times;
  }

  lemma RecentNone(cutoff: int)
    ensures Recent([], cutoff) == []
  {
  }

  lemma {:induction false} RecentRecent(times: seq<int>, early: int, late: int)
    requires early <= late
    ensures Recent(Recent(times, early), late) == Recent(times, late)
    decreases |times|
  {
    if times != [] {
      var rest, t := times[..|times| - 1], times[|times| - 1];
      RecentRecent(rest, early, late);
      if t > early {
        RecentSnoc(Recent(rest, early), t, late);
      } else {
        assert Recent(times, early) == Recent(rest, early);
      }
    }
  }

  /** What is held tells no cutoff from horizon on apart from the full history, and that history keeps
      to the rule. */
  ghost predicate Sound(held: map<string, seq<int>>, history: map<string, seq<int>>, horizon: int, max: int,
                        window: int)
  {
    && (forall ip, c :: c >= horizon ==> Recent(Get(held, ip), c) == Recent(Get(history, ip), c))
    && (forall ip :: Admissible(Get(history, ip), max, window))
  }

  lemma PruneStaysSound(held: map<string, seq<int>>, history: map<string, seq<int>>, ip: string, horizon: int,
                        cutoff: int, max: int, window: int)
    requires Sound(held, history, horizon, max, window) && horizon <= cutoff
    ensures Sound(held[ip := Recent(Get(held, ip), cutoff)], history, cutoff, max, window)
    ensures Recent(Get(held, ip), cutoff) == Recent(Get(history, ip), cutoff)
  {
    hide Recent;
    forall c | c >= cutoff
      ensures Recent(Recent(Get(held, ip), cutoff), c) == Recent(Get(history, ip), c)
    {
      RecentRecent(Get(held, ip), cutoff, c);
    }
  }

  lemma DropStaysSound(held: map<string, seq<int>>, history: map<string, seq<int>>, ip: string, horizon: int,
                       max: int, window: int)
    requires Sound(held, history, horizon, max, window) && ip in held && held[ip] == []
    ensures Sound(held - {ip}, history, horizon, max, window)
  {
    hide Recent;
    forall k, c | c >= horizon ensures Recent(Get(held - {ip}, k), c) == Recent(Get(history, k), c) {
      assert Get(held - {ip}, k) == Get(held, k);
    }
  }

  lemma NothingHeld(held: map<string, seq<int>>, history: map<string, seq<int>>, ip: string, horizon: int, max: int,
                    window: int)
    requires Sound(held, history, horizon, max, window) && ip !in held
    ensures Recent(Get(history, ip), horizon) == []
  {
    assert Recent(Get(held, ip), horizon) == [];
  }

  lemma AllowStaysSound(held: map<string, seq<int>>, history: map<string, seq<int>>, ip: string, now: int, horizon: int,
                        max: int, window: int)
    requires Sound(held, history, horizon, max, window) && |Recent(Get(history, ip), now - window)| < max
    ensures Sound(held[ip := Get(held, ip) + [now]], history[ip := Get(history, ip) + [now]], horizon, max, window)
  {
    hide Recent, Admissible;
    ServeKeepsAdmissible(Get(history, ip), now, max, window);
    var h, g := held[ip := Get(held, ip) + [now]], history[ip := Get(history, ip) + [now]];
    forall k, c | c >= horizon ensures Recent(Get(h, k), c) == Recent(Get(g, k), c) {
      RecentSnoc(Get(held, ip), now, c);
      RecentSnoc(Get(history, ip), now, c);
      assert Recent(Get(held, k), c) == Recent(Get(history, k), c);
    }
    forall k ensures Admissible(Get(g, k), max, window) {
      assert Admissible(Get(history, k), max, window);
    }
  }

  // --- The limiter itself ---

  /** A slice of its whole backing array: buf[..len]; appending beyond buf.Length reallocates. */
  datatype Slice = Slice(buf: array<int>, len: nat)

  class Limiter {
    var attempts: map<string, Slice>
    const max: int
    const window: int

    /** The held times by value, all calls ever allowed, and the time of the latest call. */
    ghost var held: map<string, seq<int>>
    ghost var history: map<string, seq<int>>
    ghost var clock: int
    ghost var Repr: set<array<int>>

    ghost predicate Valid()
      reads this, Repr
    {
      Shape(attempts, held, Repr, None) && Sound(held, history, clock - window, max, window)
    }

    /** The slices have separate backing arrays and hold the held times; `but` may be out of date. */
    static ghost predicate Shape(slices: map<string, Slice>, times: map<string, seq<int>>, repr: set<array<int>>,
                                 but: Option<string>)
      reads repr
    {
      && slices.Keys == times.Keys
      && (forall ip :: ip in slices ==> slices[ip].buf in repr)
      && (forall a, b :: a in slices && b in slices && slices[a].buf == slices[b].buf ==> a == b)
      && (forall ip :: ip in slices && but != Some(ip) ==> Holds(slices[ip], times[ip]))
    }

    /** Writing to one slice leaves the others as they are. */
    twostate lemma OthersHold(ip: string)
      requires old(Shape(attempts, held, Repr, None))
      requires attempts == old(attempts) && held == old(held) && Repr == old(Repr)
      requires forall b | b in Repr && !(ip in attempts && b == attempts[ip].buf) :: unchanged(b)
      ensures Shape(attempts, held, Repr, Some(ip))
    {
    }

    static lemma Stored(slices: map<string, Slice>, times: map<string, seq<int>>, repr: set<array<int>>,
                        ip: string, s: Slice, t: seq<int>)
      requires Shape(slices, times, repr, Some(ip)) && Holds(s, t)
      requires (ip in slices && s.buf == slices[ip].buf) || s.buf !in repr
      ensures Shape(slices[ip := s], times[ip := t], repr + {s.buf}, None)
    {
    }

    static lemma Dropped(slices: map<string, Slice>, times: map<string, seq<int>>, repr: set<array<int>>, ip: string)
      requires Shape(slices, times, repr, None)
      ensures Shape(slices - {ip}, times - {ip}, repr, None)
    {
    }

    static lemma HoldsAt(slices: map<string, Slice>, times: map<string, seq<int>>, repr: set<array<int>>, ip: string)
      requires Shape(slices, times, repr, None)
      ensures ip in slices <==> ip in times
      ensures ip in slices ==> slices[ip].buf in repr && Holds(slices[ip], times[ip])
    {
    }

    static ghost predicate Holds(s: Slice, times: seq<int>)
      reads s.buf
    {
      s.len <= s.buf.Length && s.buf[..s.len] == times
    }

    constructor (max: int, window: int, now: int)
      ensures Valid() && history == map[] && clock == now && this.max == max && this.window == window
    {
      this.max, this.window := max, window;
      attempts, held, history, clock, Repr := map[], map[], map[], now, {};
    }

    /** At any moment, in any interval of length window, at most max calls of an ip were ever allowed. */
    lemma Bound(ip: string, lo: int)
      requires Valid()
      ensures ip in history ==> CountIn(history[ip], lo, lo + window) <= if max > 0 then max else 0
    {
      AdmissibleBound(Get(history, ip), max, window, lo);
    }

    /** recent := s[:0]; append what is after the cutoff. The write index never passes the read index. */
    static method FilterInPlace(s: Slice, cutoff: int) returns (n: nat)
      requires s.len <= s.buf.Length
      modifies s.buf
      ensures n <= s.len && s.buf[..n] == Recent(old(s.buf[..s.len]), cutoff)
    {
      n := 0;
      ghost var before := s.buf[..s.len];
      for i := 0 to s.len
        invariant n <= i
        invariant s.buf[..n] == Recent(before[..i], cutoff)
        invariant forall j :: i <= j < s.len ==> s.buf[j] == before[j]
      {
        assert before[..i + 1][..i] == before[..i];
        var t := s.buf[i];
        if t > cutoff {
          s.buf[n] := t;
          n := n + 1;
        }
      }
      assert before[..s.len] == before;
    }

    /** append, which reallocates when the capacity is used up. */
    static method Append(s: Slice, t: int) returns (r: Slice)
      requires s.len <= s.buf.Length
      modifies s.buf
      ensures r.len == s.len + 1 <= r.buf.Length && r.buf[..r.len] == old(s.buf[..s.len]) + [t]
      ensures r.buf == s.buf || fresh(r.buf)
    {
      var buf := s.buf;
      if s.len == s.buf.Length {
        buf := new int[2 * s.len + 1];
        for i := 0 to s.len
          invariant forall j :: 0 <= j < i ==> buf[j] == s.buf[j]
          invariant s.buf[..] == old(s.buf[..])
        {
          buf[i] := s.buf[i];
        }
      }
      buf[s.len] := t;
      r := Slice(buf, s.len + 1);
    }

    /** l.attempts[ip], filtered; a missing entry is a nil slice. */
    method Prune(ip: string, cutoff: int) returns (recent: Slice)
      requires Valid() && clock - window <= cutoff
      modifies this`attempts, this`held, this`Repr, this`clock, Repr
      ensures Valid() && fresh(Repr - old(Repr)) && clock == cutoff + window
      ensures attempts == old(attempts)[ip := recent]
      ensures held == old(held)[ip := Recent(Get(old(held), ip), cutoff)]
      ensures held[ip] == Recent(Get(history, ip), cutoff)
    {
      hide Recent, Sound, Shape;
      PruneStaysSound(held, history, ip, clock - window, cutoff, max, window);
      HoldsAt(attempts, held, Repr, ip);
      RecentNone(cutoff);
      if ip in attempts {
        var n := FilterInPlace(attempts[ip], cutoff);
        recent := Slice(attempts[ip].buf, n);
      } else {
        var none := new int[0];
        recent := Slice(none, 0);
      }
      OthersHold(ip);
      Stored(attempts, held, Repr, ip, recent, Recent(Get(held, ip), cutoff));
      Repr := Repr + {recent.buf};
      attempts := attempts[ip := recent];
      held := held[ip := Recent(Get(held, ip), cutoff)];
      clock := cutoff + window;
    }

    method Allow(ip: string, now: int) returns (ok: bool)
      requires Valid() && clock <= now
      modifies this, Repr
      ensures Valid() && fresh(Repr - old(Repr)) && clock == now
      ensures var past := old(if ip in history then history[ip] else []);
        && (ok <==> |Recent(past, now - window)| < max)
        && history == if ok then old(history)[ip := past + [now]] else old(history)
    {
      hide Recent, Sound, Valid;
      var recent := Prune(ip, now - window);
      LengthOf(ip);
      ok := recent.len < max;
      if ok {
        Push(ip, recent, now);
      }
    }

    lemma LengthOf(ip: string)
      requires Valid() && ip in attempts
      ensures ip in held && attempts[ip].len == |held[ip]| && attempts[ip].buf in Repr
    {
    }

    lemma SameHeld(ip: string)
      requires Valid() && ip in attempts
      ensures ip in held && Get(held, ip) == held[ip]
    {
    }

    method Push(ip: string, recent: Slice, now: int)
      requires Valid() && ip in attempts && attempts[ip] == recent
      requires |Recent(Get(history, ip), now - window)| < max
      modifies this`attempts, this`held, this`history, this`Repr, recent.buf
      ensures Valid() && fresh(Repr - old(Repr))
      ensures history == old(history)[ip := Get(old(history), ip) + [now]]
    {
      hide Recent, Sound, Shape, Get;
      SameHeld(ip);
      AllowStaysSound(held, history, ip, now, clock - window, max, window);
      HoldsAt(attempts, held, Repr, ip);
      var grown := Append(recent, now);
      OthersHold(ip);
      Stored(attempts, held, Repr, ip, grown, held[ip] + [now]);
      Repr := Repr + {grown.buf};
      attempts := attempts[ip := grown];
      held := held[ip := Get(held, ip) + [now]];
      history := history[ip := Get(history, ip) + [now]];
    }

    /** Changes what is held, never the history that decides later calls. */
    method Cleanup(now: int)
      requires Valid() && clock <= now
      modifies this`attempts, this`held, this`clock, this`Repr, Repr
      ensures Valid() && fresh(Repr - old(Repr)) && clock == now
      ensures forall ip :: Get(held, ip) == Recent(Get(history, ip), now - window)
      ensures forall ip :: ip in attempts ==> held[ip] != []
    {
      hide Recent, Sound, Valid;
      var cutoff := now - window;
      Advance(now);
      var todo := attempts.Keys;
      while todo != {}
        invariant Valid() && fresh(Repr - old(Repr)) && clock == now
        invariant todo <= attempts.Keys == held.Keys
        invariant forall ip :: ip !in todo ==> Get(held, ip) == Recent(Get(history, ip), cutoff)
        invariant forall ip :: ip in attempts && ip !in todo ==> held[ip] != []
        decreases todo
      {
        var ip :| ip in todo;
        todo := todo - {ip};
        var recent := Prune(ip, cutoff);
        LengthOf(ip);
        if recent.len == 0 {
          Drop(ip);
        }
      }
    }

    ghost method Advance(now: int)
      requires Valid() && clock <= now
      modifies this`clock
      ensures Valid() && clock == now
      ensures attempts.Keys == held.Keys
      ensures forall ip :: ip !in attempts ==> Recent(Get(history, ip), now - window) == []
    {
      assert attempts.Keys == held.Keys;
      forall ip | ip !in attempts ensures Recent(Get(history, ip), now - window) == [] {
        hide Recent, Sound;
        NothingHeld(held, history, ip, clock - window, max, window);
      }
      clock := now;
    }

    method Drop(ip: string)
      requires Valid() && ip in attempts && held[ip] == []
      modifies this`attempts, this`held
      ensures Valid() && attempts == old(attempts) - {ip} && held == old(held) - {ip}
    {
      hide Sound, Shape;
      HoldsAt(attempts, held, Repr, ip);
      Dropped(attempts, held, Repr, ip);
      DropStaysSound(held, history, ip, clock - window, max, window);
      attempts := attempts - {ip};
      held := held - {ip};
    }
  }
}
