// The selection and judgment state machine of one round, as values.
// `Flip` is a click on a slot, `Judge` is the delayed match check that the
// second click schedules. The class in memory_game.dfy keeps these same
// fields and is proved to follow these functions step by step.

module Selection {
  import opened Cards

  /**
   * The round state: names and slots chosen this turn, the won pairs (each the
   * two names), the processing gate, whether a round was started, and the slots
   * taken off the board.
   */
  datatype Round = Round(
    chosen: seq<string>,
    chosenIds: seq<nat>,
    won: seq<seq<string>>,
    processing: bool,
    started: bool,
    hidden: set<nat>)

  /** The state before any round: nothing chosen, nothing won, not started. */
  function Initial(): Round
  {
    Round([], [], [], false, false, {})
  }

  /** The state `createBoard` installs; the board is rebuilt, so no slot is hidden. */
  function Fresh(): Round
  {
    Round([], [], [], false, true, {})
  }

  /** A click on `slot` is ignored: the gate is closed, the slot is taken or hidden, or two are chosen. */
  predicate Ignored(s: Round, slot: nat)
  {
    s.processing || slot in s.chosenIds || slot in s.hidden || |s.chosen| >= 2
  }

  /**
   * A click on `slot`; the name is read from the canonical deck at that slot. A
   * click never touches the won pairs, the hidden slots or the round flag, and it
   * takes effect only on a visible slot not yet chosen, while the gate is open.
   */
  function Flip(s: Round, slot: nat): (r: Round)
    requires slot < |Deck|
    ensures r.won == s.won && r.hidden == s.hidden && r.started == s.started
    ensures r != s ==> !s.processing && slot !in s.chosenIds && slot !in s.hidden && slot in r.chosenIds
  {
    if Ignored(s, slot) then s
    else
      var chosen := s.chosen + [Deck[slot].name];
      s.(chosen := chosen,
         chosenIds := s.chosenIds + [slot],
         processing := if |chosen| == 2 then true else s.processing)
  }

  /** The two chosen cards form a pair: one name twice, on two different slots. */
  predicate Matches(s: Round): (m: bool)
    requires |s.chosen| == 2 && |s.chosenIds| == 2
    ensures m ==> s.chosen == [s.chosen[0], s.chosen[0]] && |{s.chosenIds[0], s.chosenIds[1]}| == 2
  {
    s.chosen[0] == s.chosen[1] && s.chosenIds[0] != s.chosenIds[1]
  }

  /**
   * A found pair: record the names and take both slots off the board. The earlier
   * pairs and hidden slots are kept, and the selection is left for the judgment to
   * clear.
   */
  function HandleMatch(s: Round): (r: Round)
    requires |s.chosenIds| == 2
    ensures s.won <= r.won && |r.won| == |s.won| + 1
    ensures s.hidden <= r.hidden && s.chosenIds[0] in r.hidden && s.chosenIds[1] in r.hidden
    ensures r.chosen == s.chosen && r.chosenIds == s.chosenIds && r.processing == s.processing && r.started == s.started
  {
    s.(won := s.won + [s.chosen], hidden := s.hidden + {s.chosenIds[0], s.chosenIds[1]})
  }

  /**
   * The judgment: handle a match, then clear the selection and reopen the gate.
   * It records at most one pair, and it never forgets a pair or shows a hidden slot.
   */
  function Judge(s: Round): (r: Round)
    requires |s.chosen| == 2 && |s.chosenIds| == 2
    ensures r.chosen == [] && r.chosenIds == [] && !r.processing && r.started == s.started
    ensures s.won <= r.won && |r.won| <= |s.won| + 1 && s.hidden <= r.hidden
  {
    var judged := if Matches(s) then HandleMatch(s) else s;
    judged.(chosen := [], chosenIds := [], processing := false)
  }

  /** The victory condition checked after each judgment. */
  predicate Complete(s: Round)
  {
    |s.won| == Pairs
  }

  /**
   * The invariant of a round: the two lists move in lockstep and hold at most two
   * distinct, visible slots with their deck names; the gate is closed exactly
   * while two are chosen; hidden slots are board slots, two per won pair; each
   * won entry is a pair of equal names.
   */
  ghost predicate Inv(s: Round)
  {
    && |s.chosen| == |s.chosenIds| <= 2
    && (forall k :: 0 <= k < |s.chosenIds| ==>
          s.chosenIds[k] < |Deck| && s.chosenIds[k] !in s.hidden && s.chosen[k] == Deck[s.chosenIds[k]].name)
    && (|s.chosenIds| == 2 ==> s.chosenIds[0] != s.chosenIds[1])
    && (s.processing <==> |s.chosen| == 2)
    && (forall x :: x in s.hidden ==> x < |Deck|)
    && |s.hidden| == 2 * |s.won|
    && (forall i :: 0 <= i < |s.won| ==> |s.won[i]| == 2 && s.won[i][0] == s.won[i][1])
  }

  /**
   * A set of slots below `n` has at most `n` members, and it has `n` exactly when
   * it holds every slot below `n`.
   */
  lemma {:induction false} BoundedCard(h: set<nat>, n: nat)
    requires forall x :: x in h ==> x < n
    ensures |h| <= n
    ensures |h| == n <==> forall x: nat :: x < n ==> x in h
  {
    if n > 0 {
      var rest := h - {n - 1};
      BoundedCard(rest, n - 1);
      if n - 1 in h {
        assert h == rest + {n - 1};
      } else {
        assert h == rest;
      }
    }
  }

  // ---- Single operations -------------------------------------------------

  /** Before the first round and right after `createBoard`, the invariant holds and nothing is won. */
  lemma StartsValid()
    ensures Inv(Initial()) && !Initial().started
    ensures Inv(Fresh()) && Fresh().started && !Complete(Fresh())
  {
  }

  /** A click changes nothing exactly when one of the guards holds. */
  lemma FlipIgnoredIff(s: Round, slot: nat)
    requires slot < |Deck|
    ensures Flip(s, slot) == s <==> Ignored(s, slot)
  {
    if !Ignored(s, slot) {
      assert |Flip(s, slot).chosen| == |s.chosen| + 1;
    }
  }

  /**
   * A click never touches the won pairs, the hidden slots or the round flag; one
   * that passes the guards appends the slot and its canonical deck name, and
   * closes the gate exactly when it is the second card.
   */
  lemma FlipRecords(s: Round, slot: nat)
    requires Inv(s) && slot < |Deck|
    ensures Flip(s, slot).won == s.won && Flip(s, slot).hidden == s.hidden
    ensures Flip(s, slot).started == s.started
    ensures !Ignored(s, slot) ==>
      && Flip(s, slot).chosen == s.chosen + [Deck[slot].name]
      && Flip(s, slot).chosenIds == s.chosenIds + [slot]
      && (Flip(s, slot).processing <==> |s.chosen| == 1)
  {
  }

  lemma FlipPreservesInv(s: Round, slot: nat)
    requires Inv(s) && slot < |Deck|
    ensures Inv(Flip(s, slot))
  {
  }

  /**
   * While a judgment is pending the two chosen slots are always different, so the
   * slot comparison in the match test never decides the outcome: the names do.
   */
  lemma ChosenSlotsDistinct(s: Round)
    requires Inv(s) && s.processing
    ensures s.chosenIds[0] != s.chosenIds[1]
    ensures Matches(s) <==> s.chosen[0] == s.chosen[1]
  {
  }

  /**
   * Since names come from the canonical deck by slot, a judgment finds a pair
   * exactly when the two slots are twins in the unshuffled deck, whatever the
   * shuffle produced.
   */
  lemma MatchIffTwins(s: Round)
    requires Inv(s) && s.processing
    ensures Matches(s) <==> s.chosenIds[0] / 2 == s.chosenIds[1] / 2
  {
    SameNameIffTwins(s.chosenIds[0], s.chosenIds[1]);
  }

  /** Adding two new, distinct slots to a set of slots grows it by two. */
  lemma AddTwoSlots(h: set<nat>, a: nat, b: nat)
    requires a !in h && b !in h && a != b
    ensures |h + {a, b}| == |h| + 2
  {
    assert h + {a, b} == (h + {a}) + {b};
  }

  /**
   * The judgment always clears the selection and reopens the gate. On a match the
   * won pairs grow by exactly the two chosen names and exactly the two chosen
   * slots are hidden; otherwise neither changes.
   */
  lemma JudgeOutcome(s: Round)
    requires Inv(s) && s.processing
    ensures Judge(s).chosen == [] && Judge(s).chosenIds == [] && !Judge(s).processing
    ensures Judge(s).started == s.started
    ensures Matches(s) ==>
      && Judge(s).won == s.won + [[s.chosen[0], s.chosen[0]]]
      && Judge(s).hidden == s.hidden + {s.chosenIds[0], s.chosenIds[1]}
      && |Judge(s).hidden| == |s.hidden| + 2
    ensures !Matches(s) ==> Judge(s).won == s.won && Judge(s).hidden == s.hidden
  {
    if Matches(s) {
      assert s.chosen == [s.chosen[0], s.chosen[0]];
      AddTwoSlots(s.hidden, s.chosenIds[0], s.chosenIds[1]);
    }
  }

  lemma JudgePreservesInv(s: Round)
    requires Inv(s) && s.processing
    ensures Inv(Judge(s))
  {
    JudgeOutcome(s);
  }

  /**
   * The slots of a pair found by a judgment take no more clicks afterwards, so a
   * found pair cannot be chosen, and counted, a second time.
   */
  lemma FoundPairIgnored(s: Round)
    requires Inv(s) && s.processing && Matches(s)
    ensures s.chosenIds[0] < |Deck| && s.chosenIds[1] < |Deck|
    ensures Flip(Judge(s), s.chosenIds[0]) == Judge(s)
    ensures Flip(Judge(s), s.chosenIds[1]) == Judge(s)
  {
    JudgeOutcome(s);
  }

  // ---- Victory -----------------------------------------------------------

  /** At most five pairs are ever won: each one hides two board slots. */
  lemma WonBounded(s: Round)
    requires Inv(s)
    ensures |s.won| <= Pairs
  {
    BoundedCard(s.hidden, |Deck|);
  }

  /** The victory condition holds exactly when every slot of the board is hidden. */
  lemma CompleteIffAllHidden(s: Round)
    requires Inv(s)
    ensures Complete(s) <==> forall slot: nat :: slot < |Deck| ==> slot in s.hidden
  {
    DeckSize();
    BoundedCard(s.hidden, |Deck|);
  }

  /** A completed round accepts no more clicks, so no judgment can follow. */
  lemma CompleteFreezes(s: Round, slot: nat)
    requires Inv(s) && Complete(s) && slot < |Deck|
    ensures !s.processing && Flip(s, slot) == s
  {
    CompleteIffAllHidden(s);
  }

  /**
   * No judgment starts from a completed round, so the victory message is raised
   * once, by the judgment that records the fifth pair, and never earlier.
   */
  lemma VictoryOnlyOnLastPair(s: Round)
    requires Inv(s) && s.processing
    ensures !Complete(s)
    ensures Complete(Judge(s)) <==> Matches(s) && |s.won| == Pairs - 1
  {
    if Complete(s) {
      CompleteFreezes(s, 0);
    }
    JudgeOutcome(s);
  }

  // ---- Events of a round -------------------------------------------------

  /** A click on a board slot, or the firing of the pending judgment timer. */
  datatype Event = Click(slot: nat) | Timer

  predicate OnBoard(events: seq<Event>)
  {
    forall e :: e in events && e.Click? ==> e.slot < |Deck|
  }

  /**
   * One event; a timer fires only while a judgment is pending, so a timer with no
   * judgment pending changes nothing. No event forgets a pair or shows a hidden slot.
   */
  function Step(s: Round, e: Event): (r: Round)
    requires e.Click? ==> e.slot < |Deck|
    ensures e.Timer? && !s.processing ==> r == s
    ensures s.won <= r.won && s.hidden <= r.hidden && r.started == s.started
  {
    match e
    case Click(slot) => Flip(s, slot)
    case Timer => if s.processing && |s.chosen| == 2 && |s.chosenIds| == 2 then Judge(s) else s
  }

  /**
   * The events played in order. Along any run the won pairs and the hidden slots
   * only grow, and the round flag stays as it was.
   */
  function Run(s: Round, events: seq<Event>): (r: Round)
    requires OnBoard(events)
    ensures s.won <= r.won && s.hidden <= r.hidden && r.started == s.started
    decreases |events|
  {
    if events == [] then s else Run(Step(s, events[0]), events[1..])
  }

  /** Every reachable state keeps the invariant, whatever the clicks and timers. */
  lemma {:induction false} RunPreservesInv(s: Round, events: seq<Event>)
    requires Inv(s) && OnBoard(events)
    ensures Inv(Run(s, events))
    decreases |events|
  {
    if events != [] {
      var e := events[0];
      match e {
        case Click(slot) => FlipPreservesInv(s, slot);
        case Timer => if s.processing { JudgePreservesInv(s); }
      }
      assert OnBoard(events[1..]) by {
        forall e' | e' in events[1..] && e'.Click? ensures e'.slot < |Deck| {
          assert e' in events;
        }
      }
      RunPreservesInv(Step(s, e), events[1..]);
    }
  }

  /** In every reachable state of a round the won pairs never exceed five. */
  lemma ReachableWonBounded(events: seq<Event>)
    requires OnBoard(events)
    ensures |Run(Fresh(), events).won| <= Pairs
  {
    RunPreservesInv(Fresh(), events);
    WonBounded(Run(Fresh(), events));
  }

  // ---- Scenarios ---------------------------------------------------------

  lemma {:induction false} RunAppend(s: Round, a: seq<Event>, b: seq<Event>)
    requires OnBoard(a) && OnBoard(b)
    ensures OnBoard(a + b)
    ensures Run(s, a + b) == Run(Run(s, a), b)
    decreases |a|
  {
    if a == [] {
      assert a + b == b;
    } else {
      assert (a + b)[0] == a[0] && (a + b)[1..] == a[1..] + b;
      assert OnBoard(a[1..]) by {
        forall e | e in a[1..] && e.Click? ensures e.slot < |Deck| {
          assert e in a;
        }
      }
      RunAppend(Step(s, a[0]), a[1..], b);
    }
  }

  /** The clicks that pick pairs `0 .. k - 1` in deck order, each followed by its judgment. */
  function TwinClicks(k: nat): (events: seq<Event>)
    requires k <= Pairs
    ensures OnBoard(events)
  {
    if k == 0 then [] else TwinClicks(k - 1) + [Click(2 * k - 2), Click(2 * k - 1), Timer]
  }

  /** Three events in a row are three steps. */
  lemma RunThree(s: Round, a: Event, b: Event, c: Event)
    requires OnBoard([a, b, c])
    ensures Run(s, [a, b, c]) == Step(Step(Step(s, a), b), c)
  {
    assert [a, b, c][1..] == [b, c] && [b, c][1..] == [c] && [c][1..] == [];
    assert OnBoard([b, c]) && OnBoard([c]) by {
      assert b in [a, b, c] && c in [a, b, c];
    }
    calc {
      Run(s, [a, b, c]);
      Run(Step(s, a), [b, c]);
      Run(Step(Step(s, a), b), [c]);
      Run(Step(Step(Step(s, a), b), c), []);
    }
  }

  /** From a quiet state, clicking the two twins of pair `p` selects both and closes the gate. */
  lemma ClickTwins(s: Round, p: nat)
    requires s.chosen == [] && s.chosenIds == [] && !s.processing && p < Pairs
    requires 2 * p !in s.hidden && 2 * p + 1 !in s.hidden
    ensures Flip(Flip(s, 2 * p), 2 * p + 1)
      == s.(chosen := [Deck[2 * p].name, Deck[2 * p].name], chosenIds := [2 * p, 2 * p + 1], processing := true)
  {
    SameNameIffTwins(2 * p, 2 * p + 1);
    var s1 := s.(chosen := [Deck[2 * p].name], chosenIds := [2 * p]);
    assert Flip(s, 2 * p) == s1;
  }

  /** From a quiet state, clicking the two twins of pair `p` and judging wins that pair. */
  lemma PickTwins(s: Round, p: nat)
    requires s.chosen == [] && s.chosenIds == [] && !s.processing && p < Pairs
    requires 2 * p !in s.hidden && 2 * p + 1 !in s.hidden
    ensures Run(s, [Click(2 * p), Click(2 * p + 1), Timer])
      == s.(won := s.won + [[Deck[2 * p].name, Deck[2 * p].name]], hidden := s.hidden + {2 * p, 2 * p + 1})
  {
    RunThree(s, Click(2 * p), Click(2 * p + 1), Timer);
    ClickTwins(s, p);
  }

  /** `r` is quiet, has won `k` pairs, and hides no slot beyond the first `2k`. */
  predicate QuietAfter(r: Round, k: nat)
  {
    r.chosen == [] && r.chosenIds == [] && !r.processing
    && |r.won| == k && forall x: nat :: x in r.hidden ==> x < 2 * k
  }

  /** Winning the next pair in deck order keeps a round quiet and adds one won pair. */
  lemma PickNextTwins(s: Round, k: nat)
    requires 0 < k <= Pairs && QuietAfter(s, k - 1)
    ensures QuietAfter(Run(s, [Click(2 * k - 2), Click(2 * k - 1), Timer]), k)
  {
    PickTwins(s, k - 1);
  }

  /** Picking the twins of the first `k` pairs in deck order wins `k` pairs. */
  lemma {:induction false} TwinClicksWin(k: nat)
    requires k <= Pairs
    ensures QuietAfter(Run(Fresh(), TwinClicks(k)), k)
  {
    if k > 0 {
      TwinClicksWin(k - 1);
      RunAppend(Fresh(), TwinClicks(k - 1), [Click(2 * k - 2), Click(2 * k - 1), Timer]);
      PickNextTwins(Run(Fresh(), TwinClicks(k - 1)), k);
    }
  }

  /** Picking every pair in deck order completes the round. */
  lemma WinningRound()
    ensures Complete(Run(Fresh(), TwinClicks(Pairs)))
  {
    TwinClicksWin(Pairs);
  }

  /** A mismatch leaves the round as it was: nothing won, nothing hidden, selection cleared. */
  lemma MismatchRound()
    ensures Run(Fresh(), [Click(0), Click(2), Timer]) == Fresh()
  {
    assert Deck[0].name != Deck[2].name by { SameNameIffTwins(0, 2); }
  }

  /** A second click on the same slot, or a third click while judging, is ignored. */
  lemma RepeatedClicksIgnored()
    ensures Run(Fresh(), [Click(0), Click(0)]).chosenIds == [0]
    ensures Run(Fresh(), [Click(0), Click(2), Click(4)]).chosenIds == [0, 2]
  {
  }
}
