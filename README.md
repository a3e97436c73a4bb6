# Memory game: a verified model of the game logic

The repository is a browser memory-matching game. Ten cards, five pairs, are
dealt face down. The player turns over two cards. After 800 ms the game judges
them: a pair is recorded and taken off the board, and a mismatch is turned back
face down. When five pairs are recorded, the game shows a victory message.

This project models the game logic of `script.js` and proves its properties:

- `cards.dfy` (module `Cards`) holds the card configuration `cardArray`, ten
  records in the order the game declares them. Twins sit in adjacent slots.
- `fisher_yates.dfy` (module `FisherYates`) holds the in-place Fisher–Yates
  `shuffle`.
  - `Shuffle` is a method over an `array<T>` with a loop invariant.
  - `Math.random` is replaced by an oracle: a sequence `draws` with one index per
    iteration, the one for `i` lying in `[0, i]`.
  - The method is proved to produce `Shuffled(old(a[..]), draws)`, a function
    that applies the swaps one by one.
  - That function is proved to be a permutation of its input.
- `selection.dfy` (module `Selection`) holds the state machine of a round, as
  values.
  - The datatype `Round` holds the `gameState` fields `cardsChosen`,
    `cardsChosenId`, `cardsWon`, `isProcessing` and `gameStarted`.
  - It also holds the set of slots whose card element is hidden.
  - `Flip` is a click on a slot, `Judge` is `checkForMatch` with `handleMatch`,
    and `Complete` is the victory test.
  - `Inv` is the round invariant.
  - `Run` plays a sequence of clicks and timer firings. The 800 ms timer is an
    explicit `Timer` event that judges only while `isProcessing` holds.
- `memory_game.dfy` (module `MemoryGame`) holds the class `Game`.
  - Its fields are the canonical deck, the shuffled board and the `gameState`
    fields.
  - `CreateBoard`, `FlipCard`, `CheckForMatch` and `HandleMatch` update the
    fields in place, as the script does.
  - `CreateBoard`, `FlipCard` and `CheckForMatch` are each proved to move the
    fields exactly as the matching `Selection` function moves a `Round`, and to
    keep the invariant.
  - `HandleMatch` runs only inside `CheckForMatch`, while the found pair is still
    chosen. It is proved to move the fields exactly as `Selection.HandleMatch`
    does. It does not keep the invariant on its own, since it hides slots that
    are still chosen; the selection is cleared by `CheckForMatch` right after.
- `deferred_hide.dfy` (module `DeferredHide`) models the one place where the
  model departs from the script, the 500 ms delay before a found pair is hidden
  (see Findings).

As in the script, a click reads the card name from the unshuffled
`cardArray[cardId]` (script.js:106), not from the shuffled copy. The shuffled
copy is only iterated for its length (script.js:57-60). The model does the same.
`Selection.MatchIffTwins` then shows what this means: a judgment finds a pair
exactly when the two slots are `2k` and `2k + 1`, whatever the shuffle drew. The
image shown on a click is read the same way (script.js:110), so the shuffle has
no effect on play: the pairs always sit in the same slots. This is most likely
unintended: the script shuffles a copy of the deck for every new board and then
never reads a card from it. The model keeps the lookup as written.

## Model

| member | source | states |
|---|---|---|
| Cards.DeckLayout | script.js:16-27 | slot `i` of the deck holds pair id `i / 2 + 1` and the name `card` followed by that digit |
| Cards.SameNameIffTwins | script.js:16-27 | two deck slots carry the same name exactly when they are twins (`i / 2 == j / 2`), and exactly when they carry the same id |
| Cards.DeckSize | script.js:16-27 | the deck has ten cards, so `cardArray.length / 2` is five |
| FisherYates.ShuffleSteps | script.js:31-34 | every prefix of the loop's iterations keeps the array's length |
| FisherYates.Shuffled | script.js:30-36 | the shuffle keeps the length, and leaves an array of at most one card as it is, since the loop runs only while `i > 0` |
| FisherYates.SwapTouchesOnly | script.js:33 | a destructuring swap exchanges positions `i` and `j` and leaves every other position unchanged |
| FisherYates.SwapPermutes | script.js:33 | a swap is a permutation |
| FisherYates.SwapElements | script.js:33 | the in-place swap leaves the array equal to `Swap` of its old contents |
| FisherYates.ShuffleStepsPermutes | script.js:31-34 | after any number of loop iterations the array is a permutation of the input |
| FisherYates.ShuffledPermutes | script.js:30-36 | the full shuffle has the input's length and multiset of elements |
| FisherYates.Shuffle | script.js:30-36 | the in-place loop, with each draw in `[0, i]`, leaves the array equal to `Shuffled` of the input and a permutation of it |
| Selection.Flip | script.js:92-116 | a click never touches the won pairs, the hidden slots or the round flag; when it changes anything, the gate was open, the slot was neither chosen nor hidden, and the slot is now chosen |
| Selection.Matches | script.js:132 | a match is one name chosen twice, on two different slots |
| Selection.HandleMatch | script.js:155-168 | recording a pair keeps every earlier pair and adds one, hides both chosen slots without showing any hidden one, and leaves the selection for the judgment to clear |
| Selection.Judge | script.js:125-141 | a judgment clears the selection and reopens the gate, keeps the round flag, records at most one pair, and never forgets a pair or shows a hidden slot |
| Selection.Step | script.js:92-141 | a timer with no judgment pending changes nothing; no event forgets a pair, shows a hidden slot or changes the round flag |
| Selection.Run | script.js:92-141 | along any sequence of clicks and timer firings the won pairs and the hidden slots only grow, and the round flag stays as it was |
| Selection.StartsValid | script.js:7-13 | the initial state and the state `createBoard` installs both satisfy the invariant, and the latter is started and not complete |
| Selection.FlipIgnoredIff | script.js:93-102 | a click changes nothing exactly when the gate is closed, the slot is already chosen or hidden, or two cards are chosen |
| Selection.FlipRecords | script.js:104-116 | a click never touches the won pairs, the hidden slots or the started flag; an accepted one appends the slot and its deck name and closes the gate exactly when it is the second card |
| Selection.FlipPreservesInv | script.js:92-122 | a click keeps the invariant: lockstep lists of at most two distinct, visible slots with their deck names; gate closed exactly with two chosen; two hidden slots per won pair |
| Selection.ChosenSlotsDistinct | script.js:96-102 | while a judgment is pending the two chosen slots differ, so the names alone decide the match |
| Selection.MatchIffTwins | script.js:104-107 | since names are read from the unshuffled deck, a judgment finds a pair exactly when the two slots are twins in deck order |
| Selection.JudgeOutcome | script.js:125-141 | a judgment clears the selection and reopens the gate; a match adds exactly the two chosen names to the won pairs and hides exactly the two slots, two new hidden slots; a mismatch changes neither |
| Selection.JudgePreservesInv | script.js:125-168 | a judgment keeps the invariant |
| Selection.FoundPairIgnored | script.js:155-168 | with the hide at the judgment, once a pair is found, clicks on either of its slots are ignored |
| Selection.WonBounded | script.js:144-146 | with the hide at the judgment, at most five pairs are ever recorded |
| Selection.CompleteIffAllHidden | script.js:144-146 | with the hide at the judgment, the victory condition holds exactly when every slot is hidden |
| Selection.CompleteFreezes | script.js:92-102 | with the hide at the judgment, a completed round has no pending judgment and ignores every click |
| Selection.VictoryOnlyOnLastPair | script.js:143-146 | no judgment starts from a completed round, and a judgment completes it exactly when it finds the fifth pair |
| Selection.RunPreservesInv | script.js:92-168 | every state reachable by clicks and timer firings satisfies the invariant |
| Selection.ReachableWonBounded | script.js:144-146 | with the hide at the judgment, in every reachable state of a round at most five pairs are recorded |
| Selection.ClickTwins | script.js:104-116 | from a quiet state, clicking two twins selects both with their common name and closes the gate |
| Selection.PickTwins | script.js:125-168 | from a quiet state, clicking two twins and letting the timer fire records that pair and hides its two slots |
| Selection.PickNextTwins | script.js:125-168 | winning the next pair in deck order adds one won pair and keeps the state quiet |
| Selection.TwinClicksWin | script.js:125-146 | clicking the first `k` pairs in deck order wins exactly `k` pairs |
| Selection.WinningRound | script.js:143-146 | clicking all five pairs in deck order completes the round |
| Selection.MismatchRound | script.js:130-141 | a mismatched pair leaves a fresh round as it was |
| Selection.RepeatedClicksIgnored | script.js:96-102 | a second click on the same slot, or a third click while a judgment is pending, is ignored |
| DeferredHide.FadeOut | script.js:160-165 | the delayed callback takes the fading slots out of play: every click on one of them is then ignored; the won pairs, the chosen names and slots, the gate and the round flag are kept |
| DeferredHide.FlipAsWritten | script.js:97-102 | a click tests only the slots already hidden, so a fading slot that passes the other guards is chosen |
| DeferredHide.JudgeAsWritten | script.js:125-168 | the judgment as written clears the selection after the earlier hide has fired; a match appends the chosen names to the won pairs and leaves both its slots fading and, unless already hidden, still clickable; a mismatch records nothing and leaves nothing fading |
| DeferredHide.StepAsWritten | script.js:92-168 | with the delayed hide, no event forgets a pair or shows a hidden slot |
| DeferredHide.PickAsWritten | script.js:155-168 | picking a pair whose slots are not yet hidden records it, even when it was just recorded and is still fading |
| DeferredHide.PickCountAsWritten | script.js:155-168 | the same, with the won pairs counted |
| DeferredHide.PickOnceAsWritten | script.js:155-168 | picking pair `q`, when only lower slots were touched, adds one won pair and touches only the slots of `q` |
| DeferredHide.PickTwiceAsWritten | script.js:155-168 | picking pair `q` twice in a row adds two won pairs for its two slots |
| DeferredHide.DoubleCountAsWritten | script.js:155-168 | from a blank round, picking pair 0 twice records two pairs while only slots 0 and 1 were touched |
| DeferredHide.EarlyVictoryAsWritten | script.js:144-146 | from a blank round, picking pairs 0, 0, 1, 1, 2 meets the victory condition while slots 6 to 9 were never found |
| MemoryGame.Game.constructor | script.js:7-27 | the page as loaded: the deck holds the ten declared cards, there is no board, and the state is blank and not started |
| MemoryGame.Game.ResetRound | script.js:42-48 | the state reset: nothing chosen, nothing won, gate open, started, nothing hidden |
| MemoryGame.Game.ShuffledCopy | script.js:54 | the board is a fresh array holding exactly `Shuffled` of the deck under the draws, a permutation of the deck |
| MemoryGame.Game.CreateBoard | script.js:39-54 | starting a round installs the fresh state and a new board equal to `Shuffled` of the deck under the draws, a permutation of it, leaves the deck unchanged and keeps the invariant |
| MemoryGame.Game.FlipCard | script.js:92-122 | a click moves the fields exactly as `Flip` moves the round, touches only the selection fields and keeps the invariant |
| MemoryGame.Game.CheckForMatch | script.js:125-152 | the timer moves the fields exactly as `Judge` does, keeps the invariant, and reports victory exactly when five pairs are recorded |
| MemoryGame.Game.HandleMatch | script.js:155-168 | called with the two chosen slots, it moves the fields exactly as `Selection.HandleMatch`: the chosen names are appended to the won pairs and the two slots are hidden |

## Left out

- Rendering is not modelled: the grid markup, `src` attributes, CSS classes, the
  button text and the opacity transitions. None of them is game state.
- The image-load error fallback is not modelled. It is browser I/O.
- The victory modal and the error toast are not modelled. `CheckForMatch` returns
  whether the victory message is raised.
- `try`/`catch` with `console.error` is left out. None of the modelled operations
  can fail.
- Timers are discrete steps, not real time: the 800 ms judgment is a `Timer`
  event, and the 3000 ms toast removal is left out.
- A judgment timer still pending when the player restarts would fire on the new
  round. This race is left out.
- `Math.random` is a parameter: the `draws` oracle. The model says nothing about
  how evenly the shuffle distributes, nor that every permutation can be drawn.
- Event-listener registration and removal are not modelled. A hidden slot stands
  for a card that no longer takes clicks.
- `handleMismatch` only turns the two images back, 500 ms later. It changes no
  game state, so a mismatch has no effect in the model beyond the cleared
  selection.
- The page calls `createBoard` as soon as it loads (script.js:212). The
  constructor models the state before that call, and `CreateBoard` models the
  call.
- Slot ids are the strings of the `data-id` attribute in the script. They are
  modelled as natural numbers, since they are only compared with each other and
  used as indexes.
- Selection.HandleMatch: hides the two slots at once rather than 500 ms later.
  The delayed hide is modelled in `DeferredHide`; see Findings.
- MemoryGame.Game.HandleMatch: hides the two slots at once rather than 500 ms
  later, as `Selection.HandleMatch` does.

## Findings

| source | as written | input that shows it | evidently intended | confidence | as-written member | corrected member |
|---|---|---|---|---|---|---|
| script.js:155-168 | `handleMatch` records the pair at once but hides its two cards only in a 500 ms callback, while `checkForMatch` reopens the gate at once; until then the faded cards still take clicks, so the same pair can be found and counted again | from a fresh board, click slots 0 and 1; after the judgment, click 0 and 1 again within 500 ms; do the same for 2 and 3; then find 4 and 5. Five pairs are recorded and the victory message shows while slots 6 to 9 were never found | a found pair takes no more clicks and is counted once, so victory means every pair was found | not executed | DeferredHide.EarlyVictoryAsWritten | Selection.CompleteIffAllHidden |
