/**
 * The input half of both demos' main loop: every frame drains the pending
 * pygame events into the `done` flag and the set of held keys, and the loop
 * `while not done` runs until a frame has seen a quit event.
 */
module Input {
  import opened Wrappers

  /**
   * The keys the demos react to; every other pygame key code is `Other`.
   * `Other(code)` stands only for codes that are none of the twelve named
   * keys' codes, so distinct constructors are distinct keys.
   */
  datatype Key = Up | Down | Left | Right | A | D | W | S | Z | X | C | V | Other(code: int)

  /**
   * The events the loop tells apart. `Ignored` stands for every other event
   * type (mouse motion, window events, ...), which falls through the
   * if/elif chain without effect.
   */
  datatype Event = Quit | KeyDown(key: Key) | KeyUp(key: Key) | Ignored

  /** The loop's input state: the `done` flag and the `keys_down` set. */
  datatype InputState = InputState(done: bool, keysDown: set<Key>)

  /** `done = False` and `keys_down = set()` before the loop starts. */
  const INITIAL: InputState := InputState(false, {})

  /**
   * One event. A key-up calls `set.remove`, which raises KeyError when the
   * key is not held; the failure carries that key.
   */
  function Step(s: InputState, e: Event): (r: Result<InputState, Key>)
    ensures r.Failure? <==> e.KeyUp? && e.key !in s.keysDown
    ensures r.Failure? ==> r.error == e.key
  {
    match e
    case Quit => Success(s.(done := true))
    case KeyDown(k) => Success(s.(keysDown := s.keysDown + {k}))
    case KeyUp(k) =>
      if k in s.keysDown then Success(s.(keysDown := s.keysDown - {k})) else Failure(k)
    case Ignored => Success(s)
  }

  /**
   * A batch of events, in order; the first key-up of an unheld key aborts
   * the batch. Defined on the last event, so it reads like the loop.
   */
  function Fold(s: InputState, events: seq<Event>): Result<InputState, Key>
    decreases |events|
  {
    if events == [] then Success(s)
    else
      match Fold(s, events[..|events| - 1])
      case Failure(k) => Failure(k)
      case Success(t) => Step(t, events[|events| - 1])
  }

  /**
   * Reference definition of the held set: a key is held after a batch when
   * the last event of the batch that mentions it is a key-down, or when no
   * event mentions it and it was held before.
   */
  predicate HeldAfter(keys: set<Key>, events: seq<Event>, k: Key)
    decreases |events|
  {
    if events == [] then k in keys
    else
      match events[|events| - 1]
      case KeyDown(j) => j == k || HeldAfter(keys, events[..|events| - 1], k)
      case KeyUp(j) => j != k && HeldAfter(keys, events[..|events| - 1], k)
      case _ => HeldAfter(keys, events[..|events| - 1], k)
  }

  /** Every key-up in the batch releases a key that is held at that point. */
  predicate Releasable(keys: set<Key>, events: seq<Event>)
  {
    forall i :: 0 <= i < |events| && events[i].KeyUp? ==> HeldAfter(keys, events[..i], events[i].key)
  }

  /** A batch is folded without error exactly when every key-up releases a held key. */
  lemma {:induction false} FoldSucceedsIff(s: InputState, events: seq<Event>)
    ensures Fold(s, events).Success? <==> Releasable(s.keysDown, events)
    decreases |events|
  {
    if events != [] {
      var n := |events| - 1;
      var front := events[..n];
      FoldSucceedsIff(s, front);
      assert forall i :: 0 <= i < n ==> front[..i] == events[..i];
      assert Releasable(s.keysDown, events) <==>
        Releasable(s.keysDown, front) && (events[n].KeyUp? ==> HeldAfter(s.keysDown, front, events[n].key)) by {
        if Releasable(s.keysDown, events) {
          forall i | 0 <= i < |front| && front[i].KeyUp?
            ensures HeldAfter(s.keysDown, front[..i], front[i].key)
          {
            assert front[i] == events[i];
          }
        }
        if Releasable(s.keysDown, front) && (events[n].KeyUp? ==> HeldAfter(s.keysDown, front, events[n].key)) {
          forall i | 0 <= i < |events| && events[i].KeyUp?
            ensures HeldAfter(s.keysDown, events[..i], events[i].key)
          {
            if i < n {
              assert front[i] == events[i];
            } else {
              assert events[..i] == front;
            }
          }
        }
      }
      if Fold(s, front).Success? {
        FoldKeys(s, front);
      }
    }
  }

  /** After a successful batch the held set is exactly the reference one. */
  lemma {:induction false} FoldKeys(s: InputState, events: seq<Event>)
    requires Fold(s, events).Success?
    ensures forall k :: k in Fold(s, events).value.keysDown <==> HeldAfter(s.keysDown, events, k)
    decreases |events|
  {
    if events != [] {
      FoldKeys(s, events[..|events| - 1]);
    }
  }

  /** After a successful batch, `done` is set exactly when it was set before or the batch holds a quit event. */
  lemma {:induction false} FoldDone(s: InputState, events: seq<Event>)
    requires Fold(s, events).Success?
    ensures Fold(s, events).value.done == (s.done || Quit in events)
    decreases |events|
  {
    if events != [] {
      var n := |events| - 1;
      FoldDone(s, events[..n]);
      assert events == events[..n] + [events[n]];
      assert Quit in events <==> Quit in events[..n] || events[n] == Quit;
    }
  }

  /** Folding two batches one after the other is folding their concatenation. */
  lemma {:induction false} FoldAppend(s: InputState, a: seq<Event>, b: seq<Event>)
    ensures Fold(s, a + b) == match Fold(s, a) case Failure(k) => Failure(k) case Success(t) => Fold(t, b)
    decreases |b|
  {
    if b == [] {
      assert a + b == a;
    } else {
      var n := |b| - 1;
      FoldAppend(s, a, b[..n]);
      assert (a + b)[..|a + b| - 1] == a + b[..n];
    }
  }

  /** The `done` flag a batch starts with has no influence on the held keys or on whether it fails. */
  lemma {:induction false} FoldWhenDone(s: InputState, events: seq<Event>)
    ensures Fold(s.(done := true), events) ==
      match Fold(s, events) case Failure(k) => Failure(k) case Success(t) => Success(t.(done := true))
    decreases |events|
  {
    if events != [] {
      FoldWhenDone(s, events[..|events| - 1]);
    }
  }

  /**
   * A quit event does not abort the batch: the events after it are folded
   * as if it were absent, and only `done` is set.
   */
  lemma QuitKeepsFolding(s: InputState, before: seq<Event>, after: seq<Event>)
    ensures Fold(s, before + [Quit] + after) ==
      match Fold(s, before + after) case Failure(k) => Failure(k) case Success(t) => Success(t.(done := true))
  {
    FoldAppend(s, before + [Quit], after);
    FoldAppend(s, before, [Quit]);
    FoldAppend(s, before, after);
    assert (before + [Quit])[..|before + [Quit]| - 1] == before;
    if Fold(s, before).Success? {
      var t := Fold(s, before).value;
      FoldWhenDone(t, after);
    }
  }

  /**
   * Held-key set semantics: pressing A, then D, then releasing A leaves D
   * alone held; a second key-down of a held key does not need a second key-up.
   */
  lemma HeldSetSemantics(s: InputState)
    requires A !in s.keysDown && D !in s.keysDown
    ensures Fold(s, [KeyDown(A), KeyDown(D), KeyUp(A)]) == Success(s.(keysDown := s.keysDown + {D}))
    ensures Fold(s, [KeyDown(A), KeyDown(A), KeyUp(A)]) == Success(s)
  {
    assert [KeyDown(A), KeyDown(D), KeyUp(A)][..2] == [KeyDown(A), KeyDown(D)];
    assert [KeyDown(A), KeyDown(D)][..1] == [KeyDown(A)];
    assert [KeyDown(A), KeyDown(A), KeyUp(A)][..2] == [KeyDown(A), KeyDown(A)];
    assert [KeyDown(A), KeyDown(A)][..1] == [KeyDown(A)];
    assert s.keysDown + {A} + {D} - {A} == s.keysDown + {D};
    assert s.keysDown + {A} + {A} - {A} == s.keysDown;
  }

  /**
   * `for event in pygame.event.get()`: the frame's batch, folded into the
   * loop's local `done` and `keys_down`.
   */
  method PollEvents(done: bool, keysDown: set<Key>, events: seq<Event>) returns (r: Result<InputState, Key>)
    ensures r == Fold(InputState(done, keysDown), events)
  {
    var quit, held := done, keysDown;
    var i := 0;
    while i < |events|
      invariant 0 <= i <= |events|
      invariant Fold(InputState(done, keysDown), events[..i]) == Success(InputState(quit, held))
    {
      assert events[..i + 1][..i] == events[..i];
      match events[i] {
        case Quit =>
          quit := true;
        case KeyDown(k) =>
          held := held + {k};
        case KeyUp(k) =>
          if k !in held {
            FoldAppend(InputState(done, keysDown), events[..i + 1], events[i + 1..]);
            assert events[..i + 1] + events[i + 1..] == events;
            return Failure(k);
          }
          held := held - {k};
        case Ignored =>
      }
      i := i + 1;
    }
    assert events[..i] == events;
    return Success(InputState(quit, held));
  }

  /** How the loop ends when it is handed a finite sequence of frames. */
  datatype Exit = QuitRequested | Crashed(key: Key) | OutOfFrames

  /** The held set each frame's dispatch saw, and how the loop ended. */
  datatype Session = Session(frames: seq<set<Key>>, exit: Exit)

  /**
   * `while not done`: each iteration folds the next frame's batch; the
   * key-dependent dispatch then runs with the resulting held set, even on the
   * frame whose batch held the quit event. A KeyError ends the program
   * before that frame's dispatch.
   */
  function Run(s: InputState, batches: seq<seq<Event>>): Session
    decreases |batches|
  {
    if s.done then Session([], QuitRequested)
    else if batches == [] then Session([], OutOfFrames)
    else
      match Fold(s, batches[0])
      case Failure(k) => Session([], Crashed(k))
      case Success(t) =>
        var rest := Run(t, batches[1..]);
        Session([t.keysDown] + rest.frames, rest.exit)
  }

  /**
   * The frame whose batch holds a quit event still runs its dispatch, with
   * the held set of the whole batch, and it is the last frame.
   */
  lemma QuitFrameIsLast(s: InputState, batch: seq<Event>, later: seq<seq<Event>>)
    requires !s.done && Fold(s, batch).Success? && Quit in batch
    ensures Run(s, [batch] + later) == Session([Fold(s, batch).value.keysDown], QuitRequested)
  {
    FoldDone(s, batch);
    assert ([batch] + later)[1..] == later;
  }

  /**
   * The shape of a session: one frame per batch consumed; the loop quits
   * exactly when the last consumed batch held a quit event, and no earlier
   * one did; a crash happens in the batch after the last frame; running out
   * of frames means every batch was consumed.
   */
  lemma {:induction false} RunShape(s: InputState, batches: seq<seq<Event>>)
    requires !s.done
    ensures var r := Run(s, batches);
      && |r.frames| <= |batches|
      && (forall j :: 0 <= j < |r.frames| - 1 ==> Quit !in batches[j])
      && (r.exit == QuitRequested <==> 0 < |r.frames| && Quit in batches[|r.frames| - 1])
      && (r.exit.Crashed? ==>
            && |r.frames| < |batches|
            && Fold(InputState(false, if |r.frames| == 0 then s.keysDown else r.frames[|r.frames| - 1]),
                    batches[|r.frames|]) == Failure(r.exit.key))
      && (r.exit == OutOfFrames ==> |r.frames| == |batches|)
    decreases |batches|
  {
    if batches != [] && Fold(s, batches[0]).Success? {
      var t := Fold(s, batches[0]).value;
      FoldDone(s, batches[0]);
      if !t.done {
        RunShape(t, batches[1..]);
        var rest := Run(t, batches[1..]);
        assert forall j :: 1 <= j < |batches| ==> batches[j] == batches[1..][j - 1];
        if 0 < |rest.frames| {
          assert batches[|rest.frames|] == batches[1..][|rest.frames| - 1];
        }
        assert rest.exit.Crashed? ==> batches[|rest.frames| + 1] == batches[1..][|rest.frames|];
      }
    }
  }

  /** The main loop's control over a finite sequence of frames (the batches pygame delivers). */
  method RunLoop(batches: seq<seq<Event>>) returns (frames: seq<set<Key>>, exit: Exit)
    ensures Session(frames, exit) == Run(INITIAL, batches)
  {
    var done, keysDown := false, {};
    var i := 0;
    frames := [];
    while !done && i < |batches|
      invariant 0 <= i <= |batches|
      invariant Run(INITIAL, batches) ==
        Session(frames + Run(InputState(done, keysDown), batches[i..]).frames,
                Run(InputState(done, keysDown), batches[i..]).exit)
      decreases |batches| - i
    {
      var r := PollEvents(done, keysDown, batches[i]);
      assert batches[i..][0] == batches[i] && batches[i..][1..] == batches[i + 1..];
      match r
      case Failure(k) =>
        return frames, Crashed(k);
      case Success(t) =>
        done, keysDown := t.done, t.keysDown;
        frames := frames + [keysDown];
        i := i + 1;
    }
    exit := if done then QuitRequested else OutOfFrames;
  }
}
