// The game controller: the mutable round state, the canonical deck and the
// shuffled board, with the three operations the page wires to the start
// button, to each card's click and to the judgment timer.

module MemoryGame {
  import opened Cards
  import opened FisherYates
  import opened Selection

  class Game {
    /** The canonical deck `cardArray`; never written after construction. */
    const deck: array<Card>
    /** The shuffled copy the board is rendered from. */
    var board: array<Card>

    var chosen: seq<string>
    var chosenIds: seq<nat>
    var won: seq<seq<string>>
    var processing: bool
    var started: bool
    /** The slots whose card element has been hidden. */
    var hidden: set<nat>

    /** The round state held in the fields. */
    function State(): Round
      reads this`chosen, this`chosenIds, this`won, this`processing, this`started, this`hidden
    {
      Round(chosen, chosenIds, won, processing, started, hidden)
    }

    /**
     * The deck holds the canonical cards and is not the board; before the first
     * round there is no board, afterwards the board has a card per deck slot; the
     * round state keeps the selection invariant.
     */
    ghost predicate Valid()
      reads this, deck, board
    {
      Layout() && Inv(State())
    }

    ghost predicate Layout()
      reads this`board, this`started, deck, board
    {
      && deck.Length == |Deck| && (forall i :: 0 <= i < deck.Length ==> deck[i] == Deck[i])
      && deck != board
      && board.Length == (if started then |Deck| else 0)
    }

    /** The page as loaded: the deck is declared and the state is blank. */
    constructor ()
      ensures Valid() && fresh(deck) && fresh(board)
      ensures State() == Initial() && board.Length == 0
    {
      deck := new Card[|Deck|](i requires 0 <= i < |Deck| => Deck[i]);
      board := new Card[0];
      chosen, chosenIds, won := [], [], [];
      processing, started := false, false;
      hidden := {};
      new;
    }

    /**
     * Start or restart a round: reset the state and render a new board from a
     * shuffled copy of the deck, using `draws` as the random source.
     */
    method CreateBoard(draws: seq<nat>)
      requires Valid() && ValidDraws(draws, |Deck|)
      modifies this
      ensures Valid() && fresh(board)
      ensures State() == Fresh()
      ensures board[..] == Shuffled(deck[..], draws) && Perm(board[..], deck[..])
      ensures deck[..] == old(deck[..])
    {
      board := ShuffledCopy(draws);
      ResetRound();
      StartsValid();
    }

    /** The `gameState` reset at the start of a round. */
    method ResetRound()
      modifies this`chosen, this`chosenIds, this`won, this`processing, this`started, this`hidden
      ensures State() == Fresh()
    {
      chosen, chosenIds, won := [], [], [];
      processing, started := false, true;
      hidden := {};
    }

    /** `shuffle([...cardArray])`: a fresh copy of the deck, shuffled with `draws`. */
    method ShuffledCopy(draws: seq<nat>) returns (copy: array<Card>)
      requires ValidDraws(draws, deck.Length)
      ensures fresh(copy) && copy.Length == deck.Length
      ensures copy[..] == Shuffled(deck[..], draws)
      ensures Perm(copy[..], deck[..])
    {
      copy := new Card[deck.Length];
      forall i | 0 <= i < deck.Length {
        copy[i] := deck[i];
      }
      ghost var unshuffled := copy[..];
      assert unshuffled == deck[..];
      Shuffle(copy, draws);
      assert Perm(copy[..], unshuffled);
    }

    /** A click on the card in `slot`. */
    method FlipCard(slot: nat)
      requires Valid() && slot < board.Length
      modifies this`chosen, this`chosenIds, this`processing
      ensures State() == Flip(old(State()), slot)
      ensures Valid()
    {
      FlipPreservesInv(State(), slot);
      if processing {
        return;
      }
      if slot in chosenIds || slot in hidden || |chosen| >= 2 {
        return;
      }
      var name := deck[slot].name;
      assert name == Deck[slot].name;
      chosen := chosen + [name];
      chosenIds := chosenIds + [slot];
      if |chosen| == 2 {
        processing := true;
      }
    }

    /**
     * The judgment timer, pending exactly while `processing` holds. Returns
     * whether the victory message is shown.
     */
    method CheckForMatch() returns (victory: bool)
      requires Valid() && processing
      modifies this`chosen, this`chosenIds, this`won, this`processing, this`hidden
      ensures State() == Judge(old(State()))
      ensures Valid()
      ensures victory <==> Complete(State())
    {
      ghost var before := State();
      JudgePreservesInv(before);
      var firstId, secondId := chosenIds[0], chosenIds[1];
      var firstCard, secondCard := chosen[0], chosen[1];
      if firstCard == secondCard && firstId != secondId {
        HandleMatch(firstId, secondId);
      }
      chosen, chosenIds := [], [];
      processing := false;
      victory := |won| == deck.Length / 2;
    }

    /** Record the found pair and take its two slots off the board. */
    method HandleMatch(firstId: nat, secondId: nat)
      requires chosenIds == [firstId, secondId]
      modifies this`won, this`hidden
      ensures State() == Selection.HandleMatch(old(State()))
      ensures won == old(won) + [chosen]
      ensures hidden == old(hidden) + {firstId, secondId}
    {
      won := won + [chosen];
      hidden := hidden + {firstId, secondId};
    }
  }
}
