// The page as written hides a found pair only 500 ms after the judgment that
// found it, while it reopens the gate at once. This module models that timing
// and exhibits the pair that is then counted twice. The rest of the model hides
// the pair at the judgment itself (see Selection.HandleMatch).

module DeferredHide {
  import opened Cards
  import opened Selection

  /**
   * The round state together with the slots of the last found pair whose hide
   * timer has not fired yet: they are faded out but still take clicks.
   */
  datatype Pending = Pending(round: Round, fading: set<nat>)

  /** The page right after `createBoard`: no hide timer is pending. */
  function Start(): Pending
  {
    Pending(Fresh(), {})
  }

  /**
   * The 500 ms hide timer fires: the fading slots become hidden and take no more
   * clicks; the won pairs and the selection are kept.
   */
  function FadeOut(p: Pending): (r: Pending)
    ensures r.fading == {} && r.round.hidden == p.round.hidden + p.fading
    ensures r.round.won == p.round.won && r.round.chosenIds == p.round.chosenIds
    ensures r.round.chosen == p.round.chosen && r.round.processing == p.round.processing
    ensures r.round.started == p.round.started
    ensures forall x :: x in p.fading && x < |Deck| ==> Flip(r.round, x) == r.round
  {
    Pending(p.round.(hidden := p.round.hidden + p.fading), {})
  }

  /** A click: the guards test the hidden slots only, so a fading slot can be chosen. */
  function FlipAsWritten(p: Pending, slot: nat): (r: Pending)
    requires slot < |Deck|
    ensures r.fading == p.fading && r.round == Flip(p.round, slot)
    ensures slot in p.fading && !Ignored(p.round, slot) ==> slot in r.round.chosenIds
  {
    p.(round := Flip(p.round, slot))
  }

  /**
   * The judgment as written. Its 800 ms timer starts with a click made after the
   * previous judgment, whose hide timer runs 500 ms, so any pending hide has fired
   * first. A match then records the chosen names and only schedules the hiding of
   * its two slots, which stay clickable meanwhile; a mismatch records nothing.
   */
  function JudgeAsWritten(p: Pending): (r: Pending)
    requires |p.round.chosen| == 2 && |p.round.chosenIds| == 2
    ensures Quiet(r) && r.round.hidden == p.round.hidden + p.fading
    ensures p.round.won <= r.round.won && |r.round.won| <= |p.round.won| + 1
    ensures Matches(p.round) ==>
      r.round.won == p.round.won + [p.round.chosen] && r.fading == {p.round.chosenIds[0], p.round.chosenIds[1]}
    ensures !Matches(p.round) ==> r.round.won == p.round.won && r.fading == {}
    ensures Matches(p.round) && p.round.chosenIds[0] !in p.round.hidden + p.fading ==>
      p.round.chosenIds[0] in r.fading && !Ignored(r.round, p.round.chosenIds[0])
    ensures Matches(p.round) && p.round.chosenIds[1] !in p.round.hidden + p.fading ==>
      p.round.chosenIds[1] in r.fading && !Ignored(r.round, p.round.chosenIds[1])
  {
    var r := FadeOut(p).round;
    var cleared := r.(chosen := [], chosenIds := [], processing := false);
    if Matches(r) then
      Pending(cleared.(won := r.won + [r.chosen]), {r.chosenIds[0], r.chosenIds[1]})
    else
      Pending(cleared, {})
  }

  /**
   * A timer fires: the judgment when one is pending, otherwise the hide timer. No
   * event forgets a pair or shows a hidden slot.
   */
  function StepAsWritten(p: Pending, e: Event): (r: Pending)
    requires e.Click? ==> e.slot < |Deck|
    ensures p.round.won <= r.round.won && p.round.hidden <= r.round.hidden
  {
    match e
    case Click(slot) => FlipAsWritten(p, slot)
    case Timer =>
      if p.round.processing && |p.round.chosen| == 2 && |p.round.chosenIds| == 2 then JudgeAsWritten(p)
      else FadeOut(p)
  }

  function RunAsWritten(p: Pending, events: seq<Event>): Pending
    requires OnBoard(events)
    decreases |events|
  {
    if events == [] then p else RunAsWritten(StepAsWritten(p, events[0]), events[1..])
  }

  /** Three events in a row are three steps. */
  lemma RunAsWrittenThree(p: Pending, a: Event, b: Event, c: Event)
    requires OnBoard([a, b, c])
    ensures RunAsWritten(p, [a, b, c]) == StepAsWritten(StepAsWritten(StepAsWritten(p, a), b), c)
  {
    assert [a, b, c][1..] == [b, c] && [b, c][1..] == [c] && [c][1..] == [];
    assert OnBoard([b, c]) && OnBoard([c]) by {
      assert b in [a, b, c] && c in [a, b, c];
    }
    calc {
      RunAsWritten(p, [a, b, c]);
      RunAsWritten(StepAsWritten(p, a), [b, c]);
      RunAsWritten(StepAsWritten(StepAsWritten(p, a), b), [c]);
      RunAsWritten(StepAsWritten(StepAsWritten(StepAsWritten(p, a), b), c), []);
    }
  }

  /** The clicks on the twins of pair `q` followed by the judgment timer. */
  function PickPair(q: nat): (events: seq<Event>)
    requires q < Pairs
    ensures OnBoard(events)
  {
    [Click(2 * q), Click(2 * q + 1), Timer]
  }

  /** The state between turns: nothing chosen and the gate open. */
  predicate Quiet(p: Pending)
  {
    p.round.chosen == [] && p.round.chosenIds == [] && !p.round.processing
  }

  /**
   * Picking the twins of pair `q` between turns wins a pair whenever neither slot
   * is hidden yet, even when the pair was already won and is still fading: the
   * won pairs grow by one, the earlier hide fires and the pair is left fading.
   */
  lemma PickAsWritten(p: Pending, q: nat)
    requires Quiet(p) && q < Pairs
    requires 2 * q !in p.round.hidden && 2 * q + 1 !in p.round.hidden
    ensures Quiet(RunAsWritten(p, PickPair(q)))
    ensures RunAsWritten(p, PickPair(q)).round.won == p.round.won + [[Deck[2 * q].name, Deck[2 * q].name]]
    ensures RunAsWritten(p, PickPair(q)).round.hidden == p.round.hidden + p.fading
    ensures RunAsWritten(p, PickPair(q)).fading == {2 * q, 2 * q + 1}
  {
    RunAsWrittenThree(p, Click(2 * q), Click(2 * q + 1), Timer);
    ClickTwins(p.round, q);
  }

  /** `PickAsWritten` with the won pairs counted rather than listed. */
  lemma PickCountAsWritten(p: Pending, q: nat)
    requires Quiet(p) && q < Pairs
    requires 2 * q !in p.round.hidden && 2 * q + 1 !in p.round.hidden
    ensures Quiet(RunAsWritten(p, PickPair(q)))
    ensures |RunAsWritten(p, PickPair(q)).round.won| == |p.round.won| + 1
    ensures RunAsWritten(p, PickPair(q)).round.hidden == p.round.hidden + p.fading
    ensures RunAsWritten(p, PickPair(q)).fading == {2 * q, 2 * q + 1}
  {
    PickAsWritten(p, q);
  }

  /** Every slot hidden or fading lies below `m`. */
  predicate TouchedBelow(p: Pending, m: nat)
  {
    (forall x :: x in p.round.hidden ==> x < m) && (forall x :: x in p.fading ==> x < m)
  }

  /** Between turns, with `won` pairs recorded and only slots below `m` hidden or fading. */
  predicate Scored(p: Pending, won: nat, m: nat)
  {
    Quiet(p) && |p.round.won| == won && TouchedBelow(p, m)
  }

  /** Picking pair `q` when only lower slots were touched wins one pair and touches `q` alone. */
  lemma PickOnceAsWritten(p: Pending, q: nat, won: nat)
    requires q < Pairs && Scored(p, won, 2 * q)
    ensures Scored(RunAsWritten(p, PickPair(q)), won + 1, 2 * q + 2)
  {
    PickCountAsWritten(p, q);
  }

  /** Picking pair `q` twice in a row, while it fades, wins two pairs for its two slots. */
  lemma PickTwiceAsWritten(p: Pending, q: nat, won: nat)
    requires q < Pairs && Scored(p, won, 2 * q)
    ensures Scored(RunAsWritten(RunAsWritten(p, PickPair(q)), PickPair(q)), won + 2, 2 * q + 2)
  {
    var p1 := RunAsWritten(p, PickPair(q));
    PickCountAsWritten(p, q);
    PickCountAsWritten(p1, q);
  }

  /**
   * The pair just found can be found again while it fades, and then counts twice:
   * from a blank round, finding pair 0 twice records two pairs for slots 0 and 1.
   */
  lemma DoubleCountAsWritten(p0: Pending)
    requires Scored(p0, 0, 0)
    ensures Scored(RunAsWritten(RunAsWritten(p0, PickPair(0)), PickPair(0)), 2, 2)
  {
    PickTwiceAsWritten(p0, 0, 0);
  }

  /**
   * From a blank round, finding pairs 0, 0, 1, 1 and 2 in that order raises the
   * victory condition with five recorded pairs while slots 6 to 9 were never found.
   */
  lemma EarlyVictoryAsWritten(p0: Pending)
    requires Scored(p0, 0, 0)
    ensures var p2 := RunAsWritten(RunAsWritten(p0, PickPair(0)), PickPair(0));
      var p4 := RunAsWritten(RunAsWritten(p2, PickPair(1)), PickPair(1));
      var p5 := RunAsWritten(p4, PickPair(2));
      Complete(p5.round) && TouchedBelow(p5, 6)
  {
    DeckSize();
    PickTwiceAsWritten(p0, 0, 0);
    var p2 := RunAsWritten(RunAsWritten(p0, PickPair(0)), PickPair(0));
    PickTwiceAsWritten(p2, 1, 2);
    var p4 := RunAsWritten(RunAsWritten(p2, PickPair(1)), PickPair(1));
    PickOnceAsWritten(p4, 2, 4);
  }
}
