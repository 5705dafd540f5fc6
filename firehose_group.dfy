/**
 * The firehose group of the doppler: a mutable collection of sink wrappers
 * that hands every broadcast message to exactly one member, round-robin.
 *
 * The Go slice `sinkWrappers` is modelled as what it is at run time, a
 * backing array plus a length, because RemoveSink shifts that array in place
 * and RemoveAllSinks reads it while it is being shifted.  The mutex is left
 * out: every operation runs to completion before the next one starts.
 */
module FirehoseGroup {
  import opened Wrappers

  /** A sink as the group sees it.  `ref` stands for the identity of the sink
      object (Go compares interface values holding references by that identity),
      `identifier` is what its Identifier() method returns. */
  datatype Sink = Sink(ref: nat, identifier: string)

  /** A log envelope; the group never looks inside one. */
  datatype Envelope = Envelope(id: nat)

  /** A Go channel of envelopes seen from its sending side: every envelope
      sent into it, in order, and whether it has been closed. */
  class Channel {
    var sent: seq<Envelope>
    var closed: bool

    constructor ()
      ensures sent == [] && !closed
    {
      sent := [];
      closed := false;
    }

    /** `ch <- msg`; a send on a closed channel panics. */
    method Send(msg: Envelope)
      requires !closed
      modifies this
      ensures sent == old(sent) + [msg] && !closed
    {
      sent := sent + [msg];
    }

    /** `close(ch)`; closing a closed channel panics. */
    method Close()
      requires !closed
      modifies this
      ensures closed && sent == old(sent)
    {
      closed := true;
    }
  }

  /** sink_wrapper.SinkWrapper: the sink and the channel feeding it. */
  datatype SinkWrapper = SinkWrapper(inputChan: Channel, sink: Sink)

  // ---------------------------------------------------------------------
  // Specification functions over the members of a group
  // ---------------------------------------------------------------------

  /** No two members hold sinks with the same identifier. */
  ghost predicate UniqueIdentifiers(ws: seq<SinkWrapper>) {
    forall i, j :: 0 <= i < j < |ws| ==> ws[i].sink.identifier != ws[j].sink.identifier
  }

  /** No two members share a channel. */
  ghost predicate DistinctChannels(ws: seq<SinkWrapper>) {
    forall i, j :: 0 <= i < j < |ws| ==> ws[i].inputChan != ws[j].inputChan
  }

  /** Some member's sink has identifier `id`. */
  ghost predicate HasIdentifier(ws: seq<SinkWrapper>, id: string) {
    exists i :: 0 <= i < |ws| && ws[i].sink.identifier == id
  }

  /** The channels of the members. */
  ghost function ChansOf(ws: seq<SinkWrapper>): set<Channel> {
    set i | 0 <= i < |ws| :: ws[i].inputChan
  }

  /** The first position whose sink equals `s`, as RemoveSink's scan finds it. */
  function FindSink(ws: seq<SinkWrapper>, s: Sink): (r: Option<nat>)
    ensures r.None? <==> forall j :: 0 <= j < |ws| ==> ws[j].sink != s
    ensures r.Some? ==> r.value < |ws| && ws[r.value].sink == s
    ensures r.Some? ==> forall j :: 0 <= j < r.value ==> ws[j].sink != s
  {
    if ws == [] then None
    else if ws[0].sink == s then Some(0)
    else match FindSink(ws[1..], s)
      case None => None
      case Some(k) => Some(k + 1)
  }

  /** The members with position `i` taken out, the others in their order. */
  function RemoveAt(ws: seq<SinkWrapper>, i: nat): (r: seq<SinkWrapper>)
    requires i < |ws|
    ensures |r| == |ws| - 1
    ensures forall j :: 0 <= j < i ==> r[j] == ws[j]
    ensures forall j :: i <= j < |r| ==> r[j] == ws[j + 1]
  {
    ws[..i] + ws[i + 1..]
  }

  /** A Go slice value: the whole backing array and the length. */
  datatype Slice = Slice(backing: seq<SinkWrapper>, len: nat) {
    ghost predicate Valid() { len <= |backing| }

    /** The members the slice shows. */
    function Elements(): seq<SinkWrapper>
      requires Valid()
    {
      backing[..len]
    }
  }

  /** The backing array after `copy(s[i:], s[i+1:])` on a slice of length
      `n`: positions i .. n-2 take the values of i+1 .. n-1, and position n-1
      and everything past it keep what they held. */
  function CopyDown(a: seq<SinkWrapper>, i: nat, n: nat): (r: seq<SinkWrapper>)
    requires i < n <= |a|
    ensures |r| == |a|
    ensures r[..n - 1] == RemoveAt(a[..n], i)
    ensures r[n - 1..] == a[n - 1..]
  {
    a[..i] + a[i + 1..n] + a[n - 1..]
  }

  /** RemoveSink as a function of the slice: if `s` is a member, the first
      position holding it is cut out by the in-place copy and the length drops
      by one; otherwise nothing changes.  The backing array is never
      reallocated. */
  function RemoveFromSlice(st: Slice, s: Sink): (r: Slice)
    requires st.Valid()
    ensures r.Valid() && |r.backing| == |st.backing|
  {
    match FindSink(st.Elements(), s)
    case None => st
    case Some(i) => Slice(CopyDown(st.backing, i, st.len), st.len - 1)
  }

  /** RemoveSink on a slice shows the members with the first holder of `s`
      cut out, and leaves a slice without `s` as it was. */
  lemma RemoveFromSliceMembers(st: Slice, s: Sink)
    requires st.Valid()
    ensures FindSink(st.Elements(), s).None? ==> RemoveFromSlice(st, s) == st
    ensures FindSink(st.Elements(), s).Some? ==>
              RemoveFromSlice(st, s).Elements() == RemoveAt(st.Elements(), FindSink(st.Elements(), s).value)
  {
  }

  /** The slice after the first k iterations of RemoveAllSinks: `range`
      fixed the number of iterations when the loop started, and iteration
      i reads position i of the backing array as the earlier removals have
      shifted it. */
  function DrainPrefix(st: Slice, k: nat): (r: Slice)
    requires st.Valid() && k <= |st.backing|
    ensures r.Valid() && |r.backing| == |st.backing|
  {
    if k == 0 then st
    else
      var prev := DrainPrefix(st, k - 1);
      RemoveFromSlice(prev, prev.backing[k - 1].sink)
  }

  /** The position BroadcastMessage delivers to when the cursor holds
      `lastUsed` and the group has `n` members: the cursor, reset to the start
      when it has run past the end. */
  function Target(lastUsed: nat, n: nat): (t: nat)
    requires n > 0
    ensures t < n
  {
    if lastUsed >= n then 0 else lastUsed
  }

  /** The positions reached by `k` consecutive broadcasts from cursor `c` on a
      group of `n` members whose membership does not change meanwhile. */
  function Schedule(c: nat, n: nat, k: nat): (s: seq<nat>)
    requires n > 0
    ensures |s| == k
    decreases k
  {
    if k == 0 then [] else [Target(c, n)] + Schedule(Target(c, n) + 1, n, k - 1)
  }

  /** The positions a .. b-1 in ascending order. */
  function Range(a: nat, b: nat): (r: seq<nat>)
    requires a <= b
    ensures |r| == b - a && forall j :: 0 <= j < b - a ==> r[j] == a + j
  {
    seq(b - a, j => a + j)
  }

  // ---------------------------------------------------------------------
  // Round-robin delivery
  // ---------------------------------------------------------------------

  /** x reduced modulo n by repeated subtraction. */
  function Wrap(x: nat, n: nat): (r: nat)
    requires n > 0
    ensures r < n
    decreases x
  {
    if x < n then x else Wrap(x - n, n)
  }

  /** Repeated subtraction is the remainder of x divided by n. */
  lemma {:induction false} WrapIsMod(x: nat, n: nat)
    requires n > 0
    ensures Wrap(x, n) == x % n
    decreases x
  {
    if x < n {
      RemainderIsUnique(x, n, 0, x);
    } else {
      WrapIsMod(x - n, n);
      var q, r := (x - n) / n, (x - n) % n;
      assert x == (q + 1) * n + r;
      RemainderIsUnique(x, n, q + 1, r);
    }
  }

  /** Any decomposition x = q * n + r with 0 <= r < n has r == x % n. */
  lemma RemainderIsUnique(x: int, n: int, q: int, r: int)
    requires n > 0 && x == q * n + r && 0 <= r < n
    ensures x % n == r
  {
    var q', r' := x / n, x % n;
    assert (q - q') * n == r' - r;
    if q > q' { MultipleAtLeast(q - q', n); }
    if q < q' { MultipleAtLeast(q' - q, n); }
  }

  /** A positive multiple of n is at least n. */
  lemma {:induction false} MultipleAtLeast(a: int, n: int)
    requires a >= 1 && n > 0
    ensures a * n >= n
    decreases a
  {
    if a > 1 {
      MultipleAtLeast(a - 1, n);
      assert a * n == (a - 1) * n + n;
    }
  }

  /** The j-th of consecutive broadcasts reaches position (t + j) mod n, where
      t is the first position reached: the cursor walks the members in slice
      order and wraps to the start after the last one. */
  lemma {:induction false} ScheduleIsRoundRobin(c: nat, n: nat, k: nat)
    requires n > 0
    ensures forall j :: 0 <= j < k ==> Schedule(c, n, k)[j] == Wrap(Target(c, n) + j, n)
    decreases k
  {
    if k > 0 {
      var t := Target(c, n);
      var rest := Schedule(t + 1, n, k - 1);
      assert Schedule(c, n, k) == [t] + rest;
      ScheduleIsRoundRobin(t + 1, n, k - 1);
      forall j | 0 <= j < k
        ensures Schedule(c, n, k)[j] == Wrap(t + j, n)
      {
        if j > 0 {
          NextTargetWraps(t, n, j - 1);
        }
      }
    }
  }

  /** Advancing the cursor past position t and resetting it when it runs off
      the end is a step of one modulo n. */
  lemma NextTargetWraps(t: nat, n: nat, j: nat)
    requires t < n
    ensures Wrap(Target(t + 1, n) + j, n) == Wrap(t + 1 + j, n)
  {
    if t + 1 == n {
      assert Wrap(n + j, n) == Wrap(j, n);
    }
  }

  /** n consecutive broadcasts to n members reach every member exactly once:
      first the members from the cursor's target to the end, then those
      before it, each in slice order. */
  lemma RoundRobinVisitsEachOnce(c: nat, n: nat)
    requires n > 0
    ensures Schedule(c, n, n) == Range(Target(c, n), n) + Range(0, Target(c, n))
  {
    var t := Target(c, n);
    ScheduleIsRoundRobin(c, n, n);
    var s, r := Schedule(c, n, n), Range(t, n) + Range(0, t);
    forall j | 0 <= j < n
      ensures s[j] == r[j]
    {
      if j < n - t {
        assert r[j] == t + j;
      } else {
        assert r[j] == j - (n - t) == t + j - n;
        assert Wrap(t + j, n) == Wrap(t + j - n, n) == t + j - n;
      }
    }
  }

  /** From cursor 0 (a fresh group, or a cursor that has run past the end),
      n broadcasts to n members reach them in insertion order. */
  lemma RoundRobinFromStart(c: nat, n: nat)
    requires n > 0 && (c == 0 || c >= n)
    ensures Schedule(c, n, n) == Range(0, n)
  {
    RoundRobinVisitsEachOnce(c, n);
    assert Range(0, 0) == [];
  }

  // ---------------------------------------------------------------------
  // RemoveAllSinks, as written
  // ---------------------------------------------------------------------

  /** A group of one member is emptied and that member is removed. */
  lemma DrainEmptiesOne(a: SinkWrapper, spare: seq<SinkWrapper>)
    ensures DrainPrefix(Slice([a] + spare, 1), 1).Elements() == []
  {
    var st := Slice([a] + spare, 1);
    assert st.Elements() == [a];
    assert DrainPrefix(st, 1) == RemoveFromSlice(st, a.sink);
  }

  /** A group of two members is emptied: the second iteration reads the
      shifted copy of the second member at position 1 and removes it. */
  lemma DrainEmptiesTwo(a: SinkWrapper, b: SinkWrapper, spare: seq<SinkWrapper>)
    requires a.sink != b.sink
    ensures DrainPrefix(Slice([a, b] + spare, 2), 2).Elements() == []
  {
    var st0 := Slice([a, b] + spare, 2);
    assert st0.Elements() == [a, b];
    var st1 := RemoveFromSlice(st0, a.sink);
    assert DrainPrefix(st0, 1) == st1;
    assert st1.len == 1 && st1.backing[..2] == [b, b];
    assert st1.Elements() == [b];
    var st2 := RemoveFromSlice(st1, st1.backing[1].sink);
    assert DrainPrefix(st0, 2) == st2;
    assert st2.len == 0;
  }

  /** The counterexample: with members a, b, c, RemoveAllSinks removes a,
      then reads c at position 1 of the shifted array and removes it, then
      reads the stale c at position 2 and finds nothing.  b stays behind. */
  lemma DrainOfThreeKeepsSecond(a: SinkWrapper, b: SinkWrapper, c: SinkWrapper, spare: seq<SinkWrapper>)
    requires a.sink != b.sink && b.sink != c.sink && a.sink != c.sink
    ensures DrainPrefix(Slice([a, b, c] + spare, 3), 3).Elements() == [b]
  {
    var st0 := Slice([a, b, c] + spare, 3);
    assert st0.Elements() == [a, b, c];
    assert FindSink(st0.Elements(), a.sink) == Some(0);
    var st1 := RemoveFromSlice(st0, a.sink);
    assert DrainPrefix(st0, 1) == st1;
    assert st1.backing == CopyDown(st0.backing, 0, 3) == [b, c] + ([c] + spare);
    assert st1.len == 2 && st1.backing[..3] == [b, c, c];
    assert st1.Elements() == [b, c];
    assert FindSink(st1.Elements(), c.sink) == Some(1);
    var st2 := RemoveFromSlice(st1, st1.backing[1].sink);
    assert DrainPrefix(st0, 2) == st2;
    assert st2.backing == CopyDown(st1.backing, 1, 2) == st1.backing;
    assert st2.len == 1 && st2.backing[..3] == [b, c, c];
    assert st2.Elements() == [b];
    var st3 := RemoveFromSlice(st2, st2.backing[2].sink);
    assert st3 == st2;
    assert DrainPrefix(st0, 3) == st3;
  }

  // ---------------------------------------------------------------------
  // The group
  // ---------------------------------------------------------------------

  /** firehoseGroup. */
  class Group {
    /** The backing array of the Go slice `sinkWrappers`. */
    var sinkWrappers: array<SinkWrapper>
    /** len(sinkWrappers). */
    var len: nat
    /** The next position to deliver to, before the reset to 0. */
    var lastUsedSinkIndex: nat

    /** The members, in slice order. */
    ghost function Wrappers(): seq<SinkWrapper>
      reads this, sinkWrappers
      requires len <= sinkWrappers.Length
    {
      sinkWrappers[..len]
    }

    /** The slice value: backing array and length. */
    ghost function State(): Slice
      reads this, sinkWrappers
    {
      Slice(sinkWrappers[..], len)
    }

    /** The channels of the members. */
    ghost function Chans(): set<Channel>
      reads this, sinkWrappers
    {
      if len <= sinkWrappers.Length then ChansOf(sinkWrappers[..len]) else {}
    }

    /** The group invariant: no duplicate identifiers, one channel per member,
        and every member's channel still open. */
    ghost predicate Valid()
      reads this, sinkWrappers, Chans()
    {
      && len <= sinkWrappers.Length
      && UniqueIdentifiers(sinkWrappers[..len])
      && DistinctChannels(sinkWrappers[..len])
      && forall i :: 0 <= i < len ==> !sinkWrappers[i].inputChan.closed
    }

    /** NewFirehoseGroup: an empty group whose cursor is 0. */
    constructor ()
      ensures Valid() && Wrappers() == [] && lastUsedSinkIndex == 0 && fresh(sinkWrappers)
    {
      sinkWrappers := new SinkWrapper[0];
      len := 0;
      lastUsedSinkIndex := 0;
    }

    /** AddSink: refuses a sink whose identifier a member already has, and
        otherwise appends a wrapper holding it and `input` (Go's `in`).  The caller hands
        over a channel that is open and not used by a member: closing or
        sending on it later would panic otherwise. */
    method AddSink(sink: Sink, input: Channel) returns (added: bool)
      requires Valid()
      requires !input.closed && input !in Chans()
      modifies this, sinkWrappers
      ensures Valid()
      ensures added <==> !HasIdentifier(old(Wrappers()), sink.identifier)
      ensures Wrappers() == if added then old(Wrappers()) + [SinkWrapper(input, sink)] else old(Wrappers())
      ensures Chans() == if added then old(Chans()) + {input} else old(Chans())
      ensures lastUsedSinkIndex == old(lastUsedSinkIndex)
      ensures !added ==> sinkWrappers == old(sinkWrappers)
      ensures sinkWrappers == old(sinkWrappers) || fresh(sinkWrappers)
    {
      var i := 0;
      while i < len
        invariant i <= len
        invariant forall j :: 0 <= j < i ==> sinkWrappers[j].sink.identifier != sink.identifier
      {
        if sink.identifier == sinkWrappers[i].sink.identifier {
          assert Wrappers()[i].sink.identifier == sink.identifier;
          return false;
        }
        i := i + 1;
      }
      ghost var before := Wrappers();
      Append(SinkWrapper(input, sink));
      assert Wrappers() == before + [SinkWrapper(input, sink)];
      ChansOfAppend(before, SinkWrapper(input, sink));
      return true;
    }

    /** Go's built-in append of one element: in place while the backing
        array has room, otherwise into a new array of twice the capacity (one
        element for an empty one) that starts with a copy of the members.
        Positions past the length are unspecified in the model. */
    method Append(w: SinkWrapper)
      requires len <= sinkWrappers.Length
      modifies this, sinkWrappers
      ensures len == old(len) + 1 && len <= sinkWrappers.Length
      ensures sinkWrappers[..len] == old(sinkWrappers[..len]) + [w]
      ensures lastUsedSinkIndex == old(lastUsedSinkIndex)
      ensures sinkWrappers == old(sinkWrappers) || fresh(sinkWrappers)
    {
      if len == sinkWrappers.Length {
        var capacity := if len == 0 then 1 else 2 * len;
        var grown := new SinkWrapper[capacity](_ => w);
        forall k | 0 <= k < len {
          grown[k] := sinkWrappers[k];
        }
        sinkWrappers := grown;
      }
      sinkWrappers[len] := w;
      len := len + 1;
    }

    /** RemoveSink: closes the channel of the first member whose sink equals
        `fsink` and cuts that member out with the in-place copy, keeping the
        others in order and the cursor where it was; an absent sink changes
        nothing. */
    method RemoveSink(fsink: Sink) returns (removed: bool)
      requires Valid()
      modifies this`len, sinkWrappers, Chans()
      ensures Valid()
      ensures sinkWrappers == old(sinkWrappers) && lastUsedSinkIndex == old(lastUsedSinkIndex)
      ensures removed <==> FindSink(old(Wrappers()), fsink).Some?
      ensures State() == RemoveFromSlice(old(State()), fsink)
      ensures removed ==>
                var i := FindSink(old(Wrappers()), fsink).value;
                && Wrappers() == RemoveAt(old(Wrappers()), i)
                && Chans() == old(Chans()) - {old(Wrappers())[i].inputChan}
      ensures !removed ==> Chans() == old(Chans())
      ensures forall c :: c in old(Chans()) ==> c.sent == old(c.sent) && (c.closed <==> c !in Chans())
    {
      var i := 0;
      while i < len
        invariant i <= len
        invariant forall j :: 0 <= j < i ==> sinkWrappers[j].sink != fsink
      {
        if sinkWrappers[i].sink == fsink {
          assert FindSink(Wrappers(), fsink) == Some(i);
          CloseAndCut(i);
          return true;
        }
        i := i + 1;
      }
      return false;
    }

    /** The body of RemoveSink once member i is found: close its channel,
        then cut it out with the in-place copy. */
    method CloseAndCut(i: nat)
      requires Valid() && i < len
      modifies this`len, sinkWrappers, Chans()
      ensures Valid()
      ensures sinkWrappers == old(sinkWrappers) && lastUsedSinkIndex == old(lastUsedSinkIndex)
      ensures State() == Slice(CopyDown(old(sinkWrappers[..]), i, old(len)), old(len) - 1)
      ensures Wrappers() == RemoveAt(old(Wrappers()), i)
      ensures Chans() == old(Chans()) - {old(Wrappers())[i].inputChan}
      ensures forall c :: c in old(Chans()) ==> c.sent == old(c.sent) && (c.closed <==> c !in Chans())
    {
      ghost var ws := Wrappers();
      var w := sinkWrappers[i];
      assert ws[i] == w;
      assert w.inputChan in Chans();
      w.inputChan.Close();
      CopyDownAt(i);
      MemberRemoved(ws, i);
    }

    /** After member i of `ws` has been cut out and its channel closed, the
        group invariant holds again and exactly that channel has left. */
    lemma MemberRemoved(ws: seq<SinkWrapper>, i: nat)
      requires i < |ws| && UniqueIdentifiers(ws) && DistinctChannels(ws)
      requires len <= sinkWrappers.Length && Wrappers() == RemoveAt(ws, i)
      requires forall j :: 0 <= j < |ws| && j != i ==> !ws[j].inputChan.closed
      ensures Valid()
      ensures Chans() == ChansOf(ws) - {ws[i].inputChan}
    {
      RemoveAtKeepsInvariant(ws, i);
      RemovedChannels(ws, i);
      forall j | 0 <= j < len
        ensures !sinkWrappers[j].inputChan.closed
      {
        assert sinkWrappers[j] == Wrappers()[j] == ws[if j < i then j else j + 1];
      }
    }

    /** `group.sinkWrappers = s[:i+copy(s[i:], s[i+1:])]`: the copy shifts
        the members after position i down by one in the same backing array,
        and the slice is cut to one member less. */
    method CopyDownAt(i: nat)
      requires i < len <= sinkWrappers.Length
      modifies this`len, sinkWrappers
      ensures len == old(len) - 1
      ensures sinkWrappers[..] == CopyDown(old(sinkWrappers[..]), i, old(len))
      ensures Wrappers() == RemoveAt(old(Wrappers()), i)
    {
      forall k | i <= k < len - 1 {
        sinkWrappers[k] := sinkWrappers[k + 1];
      }
      len := len - 1;
      assert sinkWrappers[..] == CopyDown(old(sinkWrappers[..]), i, old(len));
      assert Wrappers() == sinkWrappers[..][..len];
    }

    /** RemoveAllSinks, as written: one RemoveSink per position of the slice
        as it was when the loop started, each reading that position of the
        backing array that the earlier removals have shifted. */
    method RemoveAllSinks()
      requires Valid()
      modifies this`len, sinkWrappers, Chans()
      ensures Valid()
      ensures sinkWrappers == old(sinkWrappers) && lastUsedSinkIndex == old(lastUsedSinkIndex)
      ensures State() == DrainPrefix(old(State()), old(len))
      ensures Chans() <= old(Chans())
      ensures forall c :: c in old(Chans()) ==> c.sent == old(c.sent) && (c.closed <==> c !in Chans())
    {
      ghost var chans0 := Chans();
      DrainLoop(sinkWrappers, len, State(), chans0);
      forall c | c in chans0
        ensures c.sent == old(c.sent)
      {
        assert SentBy(chans0)[c] == old(SentBy(chans0))[c];
      }
    }

    /** What each channel of `outer` has been sent so far. */
    ghost function SentBy(outer: set<Channel>): map<Channel, seq<Envelope>>
      reads outer
    {
      map c | c in outer :: c.sent
    }

    /** The loop of RemoveAllSinks: `range` fixed the `n` iterations over
        the backing array `s` when the slice was `st0` and its channels
        `outer`. */
    method DrainLoop(s: array<SinkWrapper>, n: nat, ghost st0: Slice, ghost outer: set<Channel>)
      requires Valid() && sinkWrappers == s && State() == st0 && n == len && outer == Chans()
      modifies this`len, sinkWrappers, Chans()
      ensures Valid() && sinkWrappers == s && lastUsedSinkIndex == old(lastUsedSinkIndex)
      ensures State() == DrainPrefix(st0, n)
      ensures Chans() <= outer
      ensures SentBy(outer) == old(SentBy(outer))
      ensures forall c :: c in outer ==> (c.closed <==> c !in Chans())
    {
      var i := 0;
      while i < n
        invariant i <= n <= s.Length
        invariant Valid() && sinkWrappers == s && lastUsedSinkIndex == old(lastUsedSinkIndex)
        invariant State() == DrainPrefix(st0, i)
        invariant Chans() <= outer
        invariant SentBy(outer) == old(SentBy(outer))
        invariant forall c :: c in outer ==> (c.closed <==> c !in Chans())
      {
        DrainStep(s, i, st0, outer);
        i := i + 1;
      }
    }

    /** Channels none of whose sends changed have the same SentBy. */
    twostate lemma SentUnchanged(outer: set<Channel>)
      requires forall c :: c in outer ==> c.sent == old(c.sent)
      ensures SentBy(outer) == old(SentBy(outer))
    {
    }

    /** RemoveSink, seen from an earlier membership `outer` whose removed
        members' channels are closed: afterwards, still exactly those
        channels of `outer` that have left the group are closed. */
    method RemoveTracked(fsink: Sink, ghost outer: set<Channel>)
      requires Valid()
      requires Chans() <= outer && forall c :: c in outer ==> (c.closed <==> c !in Chans())
      modifies this`len, sinkWrappers, Chans()
      ensures Valid() && sinkWrappers == old(sinkWrappers) && lastUsedSinkIndex == old(lastUsedSinkIndex)
      ensures State() == RemoveFromSlice(old(State()), fsink)
      ensures Chans() <= old(Chans())
      ensures forall c :: c in outer ==> c.sent == old(c.sent)
      ensures forall c :: c in outer ==> (c.closed <==> c !in Chans())
    {
      var _ := RemoveSink(fsink);
    }

    /** Iteration i of RemoveAllSinks: RemoveSink on the sink that position i
        of the backing array holds by now, which takes the slice one step
        further along the fold from `st0`. */
    method DrainStep(s: array<SinkWrapper>, i: nat, ghost st0: Slice, ghost outer: set<Channel>)
      requires Valid() && sinkWrappers == s && i < s.Length
      requires st0.Valid() && |st0.backing| == s.Length && State() == DrainPrefix(st0, i)
      requires Chans() <= outer && forall c :: c in outer ==> (c.closed <==> c !in Chans())
      modifies this`len, sinkWrappers, Chans()
      ensures Valid() && sinkWrappers == s && lastUsedSinkIndex == old(lastUsedSinkIndex)
      ensures State() == DrainPrefix(st0, i + 1)
      ensures Chans() <= old(Chans())
      ensures SentBy(outer) == old(SentBy(outer))
      ensures forall c :: c in outer ==> (c.closed <==> c !in Chans())
    {
      var w := s[i];
      ghost var st := State();
      assert st.backing[i] == w;
      RemoveTracked(w.sink, outer);
      SentUnchanged(outer);
    }

    /** A drain that removes every member: it walks a copy of the members
        taken before the first removal, so each RemoveSink finds its sink at
        the front of the shrinking slice. */
    method DrainAll()
      requires Valid()
      modifies this`len, sinkWrappers, Chans()
      ensures Valid() && Wrappers() == []
      ensures sinkWrappers == old(sinkWrappers) && lastUsedSinkIndex == old(lastUsedSinkIndex)
      ensures forall c :: c in old(Chans()) ==> c.closed && c.sent == old(c.sent)
    {
      var snapshot := sinkWrappers[..len];
      ghost var chans0 := Chans();
      var i := 0;
      while i < |snapshot|
        invariant i <= |snapshot|
        invariant Valid() && sinkWrappers == old(sinkWrappers) && lastUsedSinkIndex == old(lastUsedSinkIndex)
        invariant Wrappers() == snapshot[i..]
        invariant Chans() <= chans0
        invariant forall c :: c in chans0 ==> c.sent == old(c.sent)
        invariant forall c :: c in chans0 ==> (c.closed <==> c !in Chans())
      {
        RemoveFront(snapshot, i, chans0);
        i := i + 1;
      }
    }

    /** Iteration i of DrainAll: the sink of snapshot[i] is the first
        member, and removing it leaves the rest of the snapshot. */
    method RemoveFront(snapshot: seq<SinkWrapper>, i: nat, ghost outer: set<Channel>)
      requires Valid() && i < |snapshot| && Wrappers() == snapshot[i..]
      requires Chans() <= outer && forall c :: c in outer ==> (c.closed <==> c !in Chans())
      modifies this`len, sinkWrappers, Chans()
      ensures Valid() && sinkWrappers == old(sinkWrappers) && lastUsedSinkIndex == old(lastUsedSinkIndex)
      ensures Wrappers() == snapshot[i + 1..]
      ensures Chans() <= old(Chans())
      ensures forall c :: c in outer ==> c.sent == old(c.sent)
      ensures forall c :: c in outer ==> (c.closed <==> c !in Chans())
    {
      ghost var st := State();
      assert FindSink(st.Elements(), snapshot[i].sink) == Some(0);
      RemoveTracked(snapshot[i].sink, outer);
      RemoveFromSliceMembers(st, snapshot[i].sink);
    }

    /** IsEmpty: the group has no member. */
    method IsEmpty() returns (empty: bool)
      requires Valid()
      ensures empty <==> Wrappers() == []
    {
      var n := Length();
      empty := n == 0;
    }

    /** length: the number of members. */
    method Length() returns (n: nat)
      requires Valid()
      ensures n == |Wrappers()|
    {
      n := len;
    }

    /** BroadcastMessage: resets the cursor to 0 when it has run past the end,
        sends `msg` on the channel of the member at the cursor and of no other,
        and advances the cursor.  The group must not be empty: indexing an
        empty slice panics. */
    method BroadcastMessage(msg: Envelope)
      requires Valid() && len > 0
      modifies this`lastUsedSinkIndex, Chans()
      ensures Valid() && Wrappers() == old(Wrappers()) && Chans() == old(Chans())
      ensures lastUsedSinkIndex == Target(old(lastUsedSinkIndex), len) + 1
      ensures 1 <= lastUsedSinkIndex <= len
      ensures var t := Wrappers()[Target(old(lastUsedSinkIndex), len)].inputChan;
              && t.sent == old(t.sent) + [msg]
              && forall c :: c in Chans() && c != t ==> c.sent == old(c.sent)
    {
      var l := len;
      var lastUsed := lastUsedSinkIndex;
      if lastUsed >= l {
        lastUsedSinkIndex := 0;
      }
      var ch := sinkWrappers[lastUsedSinkIndex].inputChan;
      assert ch in Chans();
      ch.Send(msg);
      lastUsedSinkIndex := lastUsedSinkIndex + 1;
    }
  }

  /** Appending a member adds exactly its channel. */
  lemma ChansOfAppend(ws: seq<SinkWrapper>, w: SinkWrapper)
    ensures ChansOf(ws + [w]) == ChansOf(ws) + {w.inputChan}
  {
    var r := ws + [w];
    assert r[|ws|] == w;
    forall c | c in ChansOf(ws)
      ensures c in ChansOf(r)
    {
      var j :| 0 <= j < |ws| && ws[j].inputChan == c;
      assert r[j] == ws[j];
    }
  }

  /** The channel of a single member. */
  lemma ChansOfSingle(w: SinkWrapper)
    ensures ChansOf([w]) == {w.inputChan}
  {
    assert [w][0] == w;
  }

  /** Taking a member out keeps identifiers unique and channels distinct. */
  lemma RemoveAtKeepsInvariant(ws: seq<SinkWrapper>, i: nat)
    requires i < |ws| && UniqueIdentifiers(ws) && DistinctChannels(ws)
    ensures UniqueIdentifiers(RemoveAt(ws, i)) && DistinctChannels(RemoveAt(ws, i))
    ensures ws[i].inputChan !in ChansOf(RemoveAt(ws, i))
  {
    var r := RemoveAt(ws, i);
    forall p, q | 0 <= p < q < |r|
      ensures r[p].sink.identifier != r[q].sink.identifier && r[p].inputChan != r[q].inputChan
    {
      var p', q' := if p < i then p else p + 1, if q < i then q else q + 1;
      assert r[p] == ws[p'] && r[q] == ws[q'] && p' < q';
    }
    forall j | 0 <= j < |r|
      ensures r[j].inputChan != ws[i].inputChan
    {
      assert r[j] == ws[if j < i then j else j + 1];
    }
  }

  /** Taking out position i of members with distinct channels takes out
      exactly that member's channel. */
  lemma RemovedChannels(ws: seq<SinkWrapper>, i: nat)
    requires i < |ws| && DistinctChannels(ws)
    ensures ChansOf(RemoveAt(ws, i)) == ChansOf(ws) - {ws[i].inputChan}
  {
    var r := RemoveAt(ws, i);
    forall c | c in ChansOf(ws) - {ws[i].inputChan}
      ensures c in ChansOf(r)
    {
      var j :| 0 <= j < |ws| && ws[j].inputChan == c;
      if j < i {
        assert r[j] == ws[j];
      } else {
        assert r[j - 1] == ws[j];
      }
    }
  }

  // ---------------------------------------------------------------------
  // Scenarios
  // ---------------------------------------------------------------------

  /** Members a, b, c added in that order, four broadcasts: a gets m1 and
      m4, b gets m2, c gets m3. */
  method RoundRobinScenario(m1: Envelope, m2: Envelope, m3: Envelope, m4: Envelope)
  {
    var ca := new Channel();
    var cb := new Channel();
    var cc := new Channel();
    var g := GroupOfThree(ca, cb, cc);
    DeliverTwo(g, ca, cb, cc, m1, m2);
    DeliverTwoMore(g, ca, cb, cc, m1, m2, m3, m4);
  }

  /** A fresh group to which sinks a, b, c have been added in that order. */
  method GroupOfThree(ca: Channel, cb: Channel, cc: Channel) returns (g: Group)
    requires !ca.closed && !cb.closed && !cc.closed && ca != cb && cb != cc && ca != cc
    ensures fresh(g) && fresh(g.sinkWrappers)
    ensures g.Valid() && g.len == 3 && g.lastUsedSinkIndex == 0 && g.Chans() == {ca, cb, cc}
    ensures g.Wrappers() == [SinkWrapper(ca, Sink(1, "a")), SinkWrapper(cb, Sink(2, "b")), SinkWrapper(cc, Sink(3, "c"))]
  {
    g := GroupOfTwo(ca, cb);
    AddThird(g, ca, cb, cc);
  }

  /** Adding sink c to the group of a and b appends it. */
  method AddThird(g: Group, ca: Channel, cb: Channel, cc: Channel)
    requires g.Valid() && g.Chans() == {ca, cb} && !cc.closed && cc != ca && cc != cb
    requires g.Wrappers() == [SinkWrapper(ca, Sink(1, "a")), SinkWrapper(cb, Sink(2, "b"))]
    modifies g, g.sinkWrappers
    ensures g.sinkWrappers == old(g.sinkWrappers) || fresh(g.sinkWrappers)
    ensures g.Valid() && g.len == 3 && g.lastUsedSinkIndex == old(g.lastUsedSinkIndex) && g.Chans() == {ca, cb, cc}
    ensures g.Wrappers() == [SinkWrapper(ca, Sink(1, "a")), SinkWrapper(cb, Sink(2, "b")), SinkWrapper(cc, Sink(3, "c"))]
  {
    ghost var before := g.Wrappers();
    assert !HasIdentifier(before, "c") by {
      forall i | 0 <= i < |before|
        ensures before[i].sink.identifier != "c"
      {
        assert before[i].sink.identifier == if i == 0 then "a" else "b";
      }
    }
    var ok := g.AddSink(Sink(3, "c"), cc);
    assert ok;
  }

  /** The first half of RoundRobinScenario. */
  method DeliverTwo(g: Group, ca: Channel, cb: Channel, cc: Channel, m1: Envelope, m2: Envelope)
    requires g.Valid() && g.len == 3 && g.lastUsedSinkIndex == 0 && g.Chans() == {ca, cb, cc}
    requires g.Wrappers()[0].inputChan == ca && g.Wrappers()[1].inputChan == cb && g.Wrappers()[2].inputChan == cc
    requires ca.sent == [] && cb.sent == [] && cc.sent == []
    modifies g, ca, cb, cc
    ensures g.Valid() && g.len == 3 && g.lastUsedSinkIndex == 2 && g.Chans() == {ca, cb, cc}
    ensures g.Wrappers() == old(g.Wrappers())
    ensures ca.sent == [m1] && cb.sent == [m2] && cc.sent == []
  {
    g.BroadcastMessage(m1);
    assert ca.sent == [m1] && cb.sent == [] && cc.sent == [];
    g.BroadcastMessage(m2);
  }

  /** The second half of RoundRobinScenario: the cursor has reached the
      third member. */
  method DeliverTwoMore(g: Group, ca: Channel, cb: Channel, cc: Channel, m1: Envelope, m2: Envelope, m3: Envelope, m4: Envelope)
    requires g.Valid() && g.len == 3 && g.lastUsedSinkIndex == 2 && g.Chans() == {ca, cb, cc}
    requires g.Wrappers()[0].inputChan == ca && g.Wrappers()[1].inputChan == cb && g.Wrappers()[2].inputChan == cc
    requires ca.sent == [m1] && cb.sent == [m2] && cc.sent == []
    modifies g, ca, cb, cc
  {
    g.BroadcastMessage(m3);
    assert ca.sent == [m1] && cb.sent == [m2] && cc.sent == [m3];
    g.BroadcastMessage(m4);
    assert ca.sent == [m1, m4] && cb.sent == [m2] && cc.sent == [m3];
  }

  /** RemoveAllSinks on members a, b, c closes the channels of a and c and
      leaves b in the group with its channel open. */
  method RemoveAllSinksScenario()
  {
    var ca := new Channel();
    var cb := new Channel();
    var cc := new Channel();
    var g := GroupOfThree(ca, cb, cc);
    DrainGroupOfThree(g, ca, cb, cc);
    assert ca.closed && cc.closed && !cb.closed;
  }

  /** RemoveAllSinks on the group of a, b, c. */
  method DrainGroupOfThree(g: Group, ca: Channel, cb: Channel, cc: Channel)
    requires g.Valid() && g.Chans() == {ca, cb, cc} && ca != cb && cb != cc && ca != cc
    requires g.Wrappers() == [SinkWrapper(ca, Sink(1, "a")), SinkWrapper(cb, Sink(2, "b")), SinkWrapper(cc, Sink(3, "c"))]
    modifies g, g.sinkWrappers, ca, cb, cc
    ensures g.Valid() && g.Wrappers() == [SinkWrapper(cb, Sink(2, "b"))] && g.Chans() == {cb}
    ensures ca.closed && cc.closed && !cb.closed
  {
    var wa, wb, wc := SinkWrapper(ca, Sink(1, "a")), SinkWrapper(cb, Sink(2, "b")), SinkWrapper(cc, Sink(3, "c"));
    ghost var before := g.State();
    assert before.backing == [wa, wb, wc] + before.backing[3..];
    DrainOfThreeKeepsSecond(wa, wb, wc, before.backing[3..]);
    g.RemoveAllSinks();
    assert g.Wrappers() == [wb];
    ChansOfSingle(wb);
  }

  /** Members a and b; a is removed; the next two broadcasts both reach b,
      the cursor having run past the end of the shrunken group. */
  method RemoveThenBroadcastScenario(m1: Envelope, m2: Envelope)
  {
    var ca := new Channel();
    var cb := new Channel();
    var g := GroupOfTwo(ca, cb);
    RemoveFirstOfTwo(g, ca, cb);
    BroadcastTwiceToOnly(g, cb, m1, m2);
  }

  /** RemoveSink(a) on the group of a and b. */
  method RemoveFirstOfTwo(g: Group, ca: Channel, cb: Channel)
    requires g.Valid() && g.Chans() == {ca, cb}
    requires g.Wrappers() == [SinkWrapper(ca, Sink(1, "a")), SinkWrapper(cb, Sink(2, "b"))]
    modifies g`len, g.sinkWrappers, ca, cb
    ensures g.Valid() && g.len == 1 && g.Wrappers()[0].inputChan == cb && g.Chans() == {cb}
    ensures ca.closed
  {
    var ok := g.RemoveSink(Sink(1, "a"));
    assert FindSink([SinkWrapper(ca, Sink(1, "a")), SinkWrapper(cb, Sink(2, "b"))], Sink(1, "a")) == Some(0);
    assert g.Wrappers() == [SinkWrapper(cb, Sink(2, "b"))];
  }

  /** A fresh group to which sinks a and b have been added in that order. */
  method GroupOfTwo(ca: Channel, cb: Channel) returns (g: Group)
    requires !ca.closed && !cb.closed && ca != cb
    ensures fresh(g) && fresh(g.sinkWrappers)
    ensures g.Valid() && g.lastUsedSinkIndex == 0 && g.Chans() == {ca, cb}
    ensures g.Wrappers() == [SinkWrapper(ca, Sink(1, "a")), SinkWrapper(cb, Sink(2, "b"))]
  {
    var wa, wb := SinkWrapper(ca, Sink(1, "a")), SinkWrapper(cb, Sink(2, "b"));
    g := new Group();
    var ok := g.AddSink(wa.sink, ca);
    assert g.Wrappers() == [wa] && g.Chans() == {ca};
    assert !HasIdentifier([wa], "b") by {
      assert forall i :: 0 <= i < |[wa]| ==> [wa][i] == wa;
    }
    ok := g.AddSink(wb.sink, cb);
    assert ok;
  }

  /** Two broadcasts to a group whose only member feeds `cb`. */
  method BroadcastTwiceToOnly(g: Group, cb: Channel, m1: Envelope, m2: Envelope)
    requires g.Valid() && g.len == 1 && g.Wrappers()[0].inputChan == cb && g.Chans() == {cb}
    modifies g, cb
  {
    ghost var before := cb.sent;
    g.BroadcastMessage(m1);
    assert cb.sent == before + [m1] && g.lastUsedSinkIndex == 1;
    g.BroadcastMessage(m2);
    assert cb.sent == before + [m1, m2];
  }
}
