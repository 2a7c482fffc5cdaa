/** The server-sent event handler of one deploy: backfill from the store, then relay events
    until the stored status is terminal. */
module Stream {
  import opened Domain

  datatype Frame = DeployEvent(e: Event) | Connected(status: Status) | Terminal(status: Status) | Keepalive

  /** What ends one wait of the select loop; an event comes with the status read after it,
      None when that read fails. */
  datatype Wake = Cancelled | Tick | Closed | Delivered(e: Event, status: Option<Status>)

  function EventFrames(events: seq<Event>): (frames: seq<Frame>)
    ensures |frames| == |events| && forall i :: 0 <= i < |events| ==> frames[i] == DeployEvent(events[i])
  {
    seq(|events|, i requires 0 <= i < |events| => DeployEvent(events[i]))
  }

  /** Does this wake end the loop? */
  predicate Ends(w: Wake)
  {
    w.Cancelled? || w.Closed? || (w.Delivered? && (w.status.None? || IsTerminal(w.status.value)))
  }

  function WakeFrames(w: Wake): seq<Frame>
  {
    match w
    case Cancelled => []
    case Closed => []
    case Tick => [Keepalive]
    case Delivered(e, status) =>
      if status.Some? && IsTerminal(status.value) then [DeployEvent(e), Terminal(status.value)] else [DeployEvent(e)]
  }

  /** Frames of the loop. */
  function LoopFrames(wakes: seq<Wake>): seq<Frame>
  {
    if wakes == [] then []
    else WakeFrames(wakes[0]) + if Ends(wakes[0]) then [] else LoopFrames(wakes[1..])
  }

  /** Everything the handler writes, given the first status, the stored events and the wakes. */
  function Transcript(first: Status, listed: seq<Event>, wakes: seq<Wake>): seq<Frame>
  {
    EventFrames(listed) + ([Connected(first)] +
    if IsTerminal(first) then [Terminal(first)] else LoopFrames(wakes))
  }

  lemma {:induction false} LoopFramesAppend(wakes: seq<Wake>, w: Wake)
    requires forall v | v in wakes :: !Ends(v)
    ensures LoopFrames(wakes + [w]) == LoopFrames(wakes) + WakeFrames(w)
  {
    hide WakeFrames, Ends;
    if wakes == [] {
      assert wakes + [w] == [w] && [w][1..] == [] && LoopFrames([]) == [];
    } else {
      assert (wakes + [w])[0] == wakes[0] && (wakes + [w])[1..] == wakes[1..] + [w];
      assert !Ends(wakes[0]);
      LoopFramesAppend(wakes[1..], w);
      assert LoopFrames(wakes + [w]) == WakeFrames(wakes[0]) + (LoopFrames(wakes[1..]) + WakeFrames(w));
    }
  }

  /** A wake after which the stream goes on: a tick, or an event of a deploy that was read as
      pending or running. */
  predicate GoesOn(w: Wake)
  {
    w.Tick? || (w.Delivered? && w.status.Some? && (w.status.value.Pending? || w.status.value.Running?))
  }

  /** n is where the loop ends: every wake before it lets the stream go on. */
  predicate LastsUntil(wakes: seq<Wake>, n: nat)
  {
    && n <= |wakes| && (forall i :: 0 <= i < n ==> GoesOn(wakes[i]))
    && (n < |wakes| ==> !GoesOn(wakes[n]))
  }

  lemma LastsUntilTail(wakes: seq<Wake>, n: nat)
    requires LastsUntil(wakes, n) && n > 0
    ensures GoesOn(wakes[0]) && LastsUntil(wakes[1..], n - 1)
  {
    forall i | 0 <= i < n - 1 ensures GoesOn(wakes[1..][i]) {
      assert wakes[1..][i] == wakes[i + 1];
    }
  }

  /** The loop, frame by frame: one for each wake before the last, then what the last one
      brings: its event if it has one, and a terminal frame if a final status was read. */
  lemma {:induction false} LoopFramesAre(wakes: seq<Wake>, n: nat)
    requires LastsUntil(wakes, n)
    ensures var f := LoopFrames(wakes);
      && |f| >= n
      && (forall i :: 0 <= i < n ==> f[i] == if wakes[i].Tick? then Keepalive else DeployEvent(wakes[i].e))
      && f[n..] == (if n == |wakes| || !wakes[n].Delivered? then []
                    else if wakes[n].status.None? then [DeployEvent(wakes[n].e)]
                    else [DeployEvent(wakes[n].e), Terminal(wakes[n].status.value)])
  {
    if n > 0 {
      LastsUntilTail(wakes, n);
      LoopFramesAre(wakes[1..], n - 1);
      var f, rest := LoopFrames(wakes), LoopFrames(wakes[1..]);
      assert f == [f[0]] + rest;
      assert f[n..] == rest[n - 1..];
      assert wakes[1..][n - 1..] == wakes[n..];
    }
  }

  /** The events that the frames carry. */
  function EventsIn(frames: seq<Frame>): seq<Event>
  {
    if frames == [] then []
    else (if frames[0].DeployEvent? then [frames[0].e] else []) + EventsIn(frames[1..])
  }

  /** The events that the wakes brought. */
  function Relayed(wakes: seq<Wake>): seq<Event>
  {
    if wakes == [] then []
    else (if wakes[0].Delivered? then [wakes[0].e] else []) + Relayed(wakes[1..])
  }

  lemma {:induction false} EventsInAppend(a: seq<Frame>, b: seq<Frame>)
    ensures EventsIn(a + b) == EventsIn(a) + EventsIn(b)
  {
    if a == [] {
      assert a + b == b;
    } else {
      assert (a + b)[0] == a[0] && (a + b)[1..] == a[1..] + b;
      EventsInAppend(a[1..], b);
    }
  }

  lemma {:induction false} EventsInListed(listed: seq<Event>)
    ensures EventsIn(EventFrames(listed)) == listed
  {
    if listed != [] {
      EventsInListed(listed[1..]);
      assert EventFrames(listed)[1..] == EventFrames(listed[1..]);
    }
  }

  /** The events of the wakes up to and including the one that ends the loop. */
  function Heard(wakes: seq<Wake>, n: nat): seq<Event>
  {
    Relayed(if n < |wakes| then wakes[..n + 1] else wakes)
  }

  lemma {:induction false} LoopShows(wakes: seq<Wake>, n: nat)
    requires LastsUntil(wakes, n)
    ensures EventsIn(LoopFrames(wakes)) == Heard(wakes, n)
  {
    if wakes != [] {
      EventsInAppend(WakeFrames(wakes[0]), if Ends(wakes[0]) then [] else LoopFrames(wakes[1..]));
      var heard := if n < |wakes| then wakes[..n + 1] else wakes;
      if n > 0 {
        LastsUntilTail(wakes, n);
        LoopShows(wakes[1..], n - 1);
        assert heard[1..] == if n < |wakes| then wakes[1..][..n] else wakes[1..];
      } else {
        assert heard == [wakes[0]] && heard[1..] == [];
        assert Heard(wakes, n) == Relayed(heard) == (if wakes[0].Delivered? then [wakes[0].e] else []) + Relayed([]);
      }
    }
  }

  /** A client that stays sees the stored events and then, unless the deploy was over, the
      event of every wake up to the one that ended the loop: none is left out. */
  lemma TranscriptShows(first: Status, listed: seq<Event>, wakes: seq<Wake>, n: nat)
    requires LastsUntil(wakes, n)
    ensures EventsIn(Transcript(first, listed, wakes))
         == listed + if first.Pending? || first.Running? then Heard(wakes, n) else []
  {
    hide LoopFrames, EventFrames, Heard, EventsIn, LastsUntil;
    var rest := if IsTerminal(first) then [Terminal(first)] else LoopFrames(wakes);
    EventsInAppend(EventFrames(listed), [Connected(first)] + rest);
    StatusShowsNothing(first, rest);
    EventsInListed(listed);
    LoopShows(wakes, n);
  }

  /** The transcript, frame by frame: the stored events, the status the stream connects with,
      then a terminal frame for a finished deploy and the loop for any other. */
  lemma TranscriptIs(first: Status, listed: seq<Event>, wakes: seq<Wake>)
    ensures var f := Transcript(first, listed, wakes);
      && |f| > |listed| && (forall i :: 0 <= i < |listed| ==> f[i] == DeployEvent(listed[i]))
      && f[|listed|] == Connected(first)
      && f[|listed| + 1..] == if first.Pending? || first.Running? then LoopFrames(wakes) else [Terminal(first)]
  {
    hide LoopFrames;
  }

  lemma StatusShowsNothing(first: Status, rest: seq<Frame>)
    ensures EventsIn([Connected(first)] + rest) == EventsIn(rest) && EventsIn([Terminal(first)]) == []
  {
    assert ([Connected(first)] + rest)[1..] == rest;
    assert [Terminal(first)][1..] == [];
  }

  /** What gets through a connection that breaks after n frames. */
  function Through(full: seq<Frame>, n: nat): seq<Frame>
  {
    if |full| <= n then full else full[..n]
  }

  lemma ThroughAppend(a: seq<Frame>, b: seq<Frame>, n: nat)
    ensures Through(a + b, n) == if |a| <= n then a + Through(b, n - |a|) else Through(a, n)
  {
  }

  lemma ThroughKeeps(full: seq<Frame>, n: nat)
    ensures Through(full, n) <= full && (|Through(full, n)| == if |full| <= n then |full| else n)
  {
  }

  lemma Uncut(full: seq<Frame>, n: nat)
    ensures |Through(full, n)| < n ==> Through(full, n) == full
  {
  }

  /** The response writer: room is how many frames go through before the connection breaks. */
  class Connection {
    var frames: seq<Frame>
    var room: nat

    method Write(f: Frame) returns (ok: bool)
      modifies this
      ensures ok == (old(room) > 0) && room == old(room) - (if ok then 1 else 0)
      ensures frames == old(frames) + if ok then [f] else []
    {
      ok := room > 0;
      if ok {
        frames := frames + [f];
        room := room - 1;
      }
    }

    /** StreamEvents, after the deploy was found: the frames are those of the transcript, up
        to the first one that cannot be written. */
    method StreamEvents(first: Status, listed: seq<Event>, wakes: seq<Wake>)
      modifies this
      ensures frames == old(frames) + Through(Transcript(first, listed, wakes), old(room))
      ensures var written := frames[|old(frames)|..];
              forall n: nat :: LastsUntil(wakes, n) && |written| < old(room) ==>
                (EventsIn(written) == listed + if first.Pending? || first.Running? then Heard(wakes, n) else [])
      ensures old(room) > |listed| ==>
                |frames| > |old(frames)| + |listed| && frames[|old(frames)| + |listed|] == Connected(first)
    {
      hide LoopFrames, Through, EventFrames, LastsUntil, Heard;
      ghost var shown, n := EventFrames(listed), room;
      ghost var rest := if IsTerminal(first) then [Terminal(first)] else LoopFrames(wakes);
      ThroughAppend(shown, [Connected(first)] + rest, room);
      assert |shown| == |listed|;
      var ok := Backfill(listed);
      if ok {
        Fits(shown, n);
        Associative(old(frames), shown, Through([Connected(first)] + rest, room));
        Greet(first, wakes);
      }
      TranscriptIs(first, listed, wakes);
      ghost var written := Through(Transcript(first, listed, wakes), n);
      ThroughKeeps(Transcript(first, listed, wakes), n);
      assert frames[|old(frames)|..] == written;
      forall k: nat | LastsUntil(wakes, k) && |written| < n
        ensures EventsIn(written) == listed + if first.Pending? || first.Running? then Heard(wakes, k) else []
      {
        Uncut(Transcript(first, listed, wakes), n);
        TranscriptShows(first, listed, wakes, k);
      }
    }

    /** The connected frame and what follows it. */
    method Greet(first: Status, wakes: seq<Wake>)
      modifies this
      ensures frames == old(frames)
                + Through([Connected(first)] + if IsTerminal(first) then [Terminal(first)] else LoopFrames(wakes), old(room))
    {
      hide LoopFrames;
      ghost var rest := if IsTerminal(first) then [Terminal(first)] else LoopFrames(wakes);
      ThroughAppend([Connected(first)], rest, room);
      var ok := Write(Connected(first));
      if !ok { return; }
      Associative(old(frames), [Connected(first)], Through(rest, room));
      if IsTerminal(first) {
        ok := Write(Terminal(first));
      } else {
        Relay(wakes);
      }
    }

    method Backfill(listed: seq<Event>) returns (ok: bool)
      modifies this
      ensures ok == (|listed| <= old(room)) && (ok ==> room == old(room) - |listed|)
      ensures frames == old(frames) + Through(EventFrames(listed), old(room))
    {
      ghost var full, start, n := EventFrames(listed), frames, room;
      for i := 0 to |listed|
        invariant i <= n && room == n - i && frames == start + full[..i]
      {
        assert full[..i + 1] == full[..i] + [full[i]];
        ok := Write(DeployEvent(listed[i]));
        if !ok { return; }
      }
      ok := true;
    }

    /** The select loop. */
    method Relay(wakes: seq<Wake>)
      modifies this
      ensures frames == old(frames) + Through(LoopFrames(wakes), old(room))
    {
      hide WakeFrames, Ends, Through, LoopFrames;
      ghost var full, start, n := LoopFrames(wakes), frames, room;
      ghost var shown: seq<Frame> := [];
      var i := 0;
      assert wakes[0..] == wakes;
      while i < |wakes|
        invariant i <= |wakes| && frames == start + shown
        invariant Through(full, n) == shown + Through(LoopFrames(wakes[i..]), room)
      {
        Turn(wakes, i, room);
        ghost var written := Through(WakeFrames(wakes[i]), room);
        ghost var rest := if Ends(wakes[i]) || room < |WakeFrames(wakes[i])| then []
                          else Through(LoopFrames(wakes[i + 1..]), room - |WakeFrames(wakes[i])|);
        Associative(shown, written, rest);
        Associative(start, shown, written);
        var go := Serve(wakes[i]);
        if !go {
          return;
        }
        shown := shown + written;
        i := i + 1;
      }
      NothingLeft(wakes, room);
    }

    /** One turn of the select loop; go: the loop continues. */
    method Serve(w: Wake) returns (go: bool)
      modifies this
      ensures frames == old(frames) + Through(WakeFrames(w), old(room))
      ensures go == (!Ends(w) && |WakeFrames(w)| <= old(room))
      ensures go ==> room == old(room) - |WakeFrames(w)|
    {
      match w {
        case Cancelled => return false;
        case Closed => return false;
        case Tick =>
          go := Write(Keepalive);
        case Delivered(e, status) =>
          go := Write(DeployEvent(e));
          if !go { return; }
          if status.None? { return false; }
          if IsTerminal(status.value) {
            go := Write(Terminal(status.value));
            go := false;
          }
      }
    }
  }

  lemma Turn(wakes: seq<Wake>, i: nat, n: nat)
    requires i < |wakes|
    ensures var w := wakes[i];
            Through(LoopFrames(wakes[i..]), n) ==
              Through(WakeFrames(w), n) +
              if Ends(w) || n < |WakeFrames(w)| then []
              else Through(LoopFrames(wakes[i + 1..]), n - |WakeFrames(w)|)
  {
    assert wakes[i..][0] == wakes[i] && wakes[i..][1..] == wakes[i + 1..];
    ThroughAppend(WakeFrames(wakes[i]), if Ends(wakes[i]) then [] else LoopFrames(wakes[i + 1..]), n);
  }

  lemma NothingLeft(wakes: seq<Wake>, n: nat)
    ensures Through(LoopFrames(wakes[|wakes|..]), n) == []
  {
  }

  lemma Fits(full: seq<Frame>, n: nat)
    ensures |full| <= n ==> Through(full, n) == full
  {
  }

  lemma Associative<T>(a: seq<T>, b: seq<T>, c: seq<T>)
    ensures a + b + c == a + (b + c)
  {
  }
}
