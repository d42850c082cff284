/** Runs of single writes on a disk that may stop taking them: a failed write and a crash both leave
    a prefix of the writes landed. */
module Journal {

  function Replay<S, W>(state: S, writes: seq<W>, apply: (S, W) -> S): S
    decreases |writes|
  {
    if writes == [] then state else Replay(apply(state, writes[0]), writes[1..], apply)
  }

  /** The writes a disk with room for `room` more of them takes. */
  function Taken<W>(writes: seq<W>, room: nat): seq<W> {
    if room < |writes| then writes[..room] else writes
  }

  /** The room a disk has left after `writes`. */
  function Left<W>(writes: seq<W>, room: nat): nat {
    if room < |writes| then 0 else room - |writes|
  }

  lemma {:induction false} ReplayTogether<S, W>(state: S, first: seq<W>, second: seq<W>, apply: (S, W) -> S)
    ensures Replay(state, first + second, apply) == Replay(Replay(state, first, apply), second, apply)
    decreases |first|
  {
    if first == [] {
      assert first + second == second;
    } else {
      assert (first + second)[1..] == first[1..] + second;
      ReplayTogether(apply(state, first[0]), first[1..], second, apply);
    }
  }

  lemma ReplayOne<S, W>(state: S, write: W, apply: (S, W) -> S)
    ensures Replay(state, [write], apply) == apply(state, write)
  {}

  lemma ReplayTwo<S, W>(state: S, first: W, second: W, apply: (S, W) -> S)
    ensures Replay(state, [first, second], apply) == apply(apply(state, first), second)
  {
    ReplayOne(apply(state, first), second, apply);
    assert [first, second][1..] == [second];
  }

  lemma TakenPast<W>(first: seq<W>, second: seq<W>, room: nat)
    requires room > |first|
    ensures Taken(first + second, room) == first + Taken(second, room - |first|)
  {
    if room < |first + second| {
      assert (first + second)[..room] == first + second[..room - |first|];
    }
  }

  lemma TakenTogether<S, W>(state: S, first: seq<W>, second: seq<W>, apply: (S, W) -> S, room: nat)
    ensures Replay(state, Taken(first + second, room), apply) ==
      if room <= |first| then Replay(state, Taken(first, room), apply)
      else Replay(Replay(state, first, apply), Taken(second, room - |first|), apply)
  {
    if room <= |first| {
      assert Taken(first + second, room) == Taken(first, room);
    } else {
      TakenPast(first, second, room);
      ReplayTogether(state, first, Taken(second, room - |first|), apply);
    }
  }

  /** `p` holds before the writes and after each of them. */
  ghost predicate Throughout<S, W>(state: S, writes: seq<W>, apply: (S, W) -> S, p: S -> bool)
    decreases |writes|
  {
    p(state) && (writes != [] ==> Throughout(apply(state, writes[0]), writes[1..], apply, p))
  }

  lemma {:induction false} AtEveryCut<S, W>(state: S, writes: seq<W>, apply: (S, W) -> S, p: S -> bool, room: nat)
    requires Throughout(state, writes, apply, p)
    ensures p(Replay(state, Taken(writes, room), apply))
    decreases |writes|
  {
    if writes == [] || room == 0 {
      assert Taken(writes, room) == [];
    } else {
      assert Taken(writes, room)[1..] == Taken(writes[1..], room - 1);
      AtEveryCut(apply(state, writes[0]), writes[1..], apply, p, room - 1);
    }
  }

  lemma {:induction false} ThroughoutBoth<S, W>(state: S, first: seq<W>, second: seq<W>, apply: (S, W) -> S, p: S -> bool)
    requires Throughout(state, first, apply, p)
    requires Throughout(Replay(state, first, apply), second, apply, p)
    ensures Throughout(state, first + second, apply, p)
    decreases |first|
  {
    if first == [] {
      assert first + second == second;
    } else {
      assert (first + second)[1..] == first[1..] + second;
      ThroughoutBoth(apply(state, first[0]), first[1..], second, apply, p);
    }
  }

  lemma ThroughoutOne<S, W>(state: S, write: W, apply: (S, W) -> S, p: S -> bool)
    requires p(state) && p(apply(state, write))
    ensures Throughout(state, [write], apply, p)
  {}

  lemma ThroughoutTwo<S, W>(state: S, first: W, second: W, apply: (S, W) -> S, p: S -> bool)
    requires p(state) && p(apply(state, first)) && p(apply(apply(state, first), second))
    ensures Throughout(state, [first, second], apply, p)
  {}
}
