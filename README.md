# The Valentine case: puzzle and progression logic

This project models the game logic of `script.js`, a browser mystery game. The
player solves four puzzles in turn. Each solved puzzle unlocks a ring and, after
a delay, moves the page on to the next panel:

1. **Mixing.** Colour samples are dropped into a bowl. The bowl shows the rounded
   per-channel mean of every sample since the last reset. A pink mean wins.
2. **Debate.** Six argument cards (three boons, three banes) are dragged from a
   card stack into, and between, two zones. Three banes in the right zone win.
3. **Jigsaw.** Answering a riddle reveals its piece. Revealed pieces are dropped
   onto four slots, and a slot only takes a piece while it is empty. Slot i
   holding piece i, for every i, wins.
4. **Date.** The typed date, with all white space removed, must read `03/07` or
   `0307`.

The modules are:

- `Progression` (`progression.dfy`): `transitionTo` and `unlockRing` as the
  class `Stage`. The active panel, the pending 300 ms activation, the queue of
  2500 ms transitions and the set of unlocked rings are its fields.
- `Text` (`text.dfy`): JavaScript's white-space class, `trim`, `toLowerCase`
  and `replace(/\s/g, '')`.
- `ColorMix` (`color_mix.dfy`), `Debate` (`debate.dfy`), `Jigsaw` (`jigsaw.dfy`)
  and `DateCheck` (`date_check.dfy`): one module per puzzle. Each puzzle whose
  handlers update state is a class. Its `Valid()` states that the puzzle is
  switched off only after a win.
- `Wrappers` (`wrappers.dfy`): `Option`.

Conventions:

- Pointer events being turned off after a win (`style.pointerEvents = 'none'`)
  is the `enabled` field of each puzzle. Handlers gated by it do nothing once
  it is false.
- The two `setTimeout` delays are not timed. They are the environment steps
  `Stage.ShowPending`, the 300 ms callback, and `Stage.RunScheduled`, the
  2500 ms callback. All ring callbacks have the same delay, so they fire in the
  order they were scheduled.
- `Math.round(s / n)` for the non-negative integer sums of `calcMix` is
  `(2s + n) / (2n)` in integer division. It is specified as the unique integer
  q with n(2q − 1) ≤ 2s < n(2q + 1): halves round up, as in JavaScript.

Two consequences of the code are worth spelling out:

- **Jigsaw pieces move.** `slot.appendChild(piece)` moves a placed piece, so
  dropping it onto another empty slot empties its old slot (`Jigsaw.Place`).
- **Rings re-schedule.** `unlockRing` schedules the transition on every call,
  so the unlocked set stays the same on a second call but the queue grows. The
  date puzzle is never switched off, so each accepted check schedules "finale"
  again.

## Model

| member | source | states |
|---|---|---|
| Progression.Stage.constructor | script.js:103-105 | The page starts with exactly one active panel, no pending activation, no scheduled transition and no unlocked ring. |
| Progression.Stage.TransitionTo | script.js:103-107 | The active panel loses `active` at once and the target is remembered for the delayed activation. With no active panel, the source throws; nothing changes and `ok` is false. At most one panel stays active. |
| Progression.Stage.ShowPending | script.js:107 | The delayed callback makes the target the one active panel, or activates nothing when the target is not in the page. |
| Progression.Stage.UnlockRing | script.js:110-115 | The ring joins the unlocked set, which only grows; unlocking an unlocked ring leaves the set as it was. One transition to `next` is queued per call. |
| Progression.Stage.RunScheduled | script.js:114 | The oldest queued transition leaves the queue and runs `transitionTo`; an empty queue changes nothing. |
| Text.IsSpace | script.js:229 | The white-space class of `trim` and of `\s` in `replace`: tab, line feed, vertical tab, form feed, carriage return, space, no-break space, the Unicode space separators, the line and paragraph separators and the byte-order mark. |
| Text.PrintableIsNotSpace | script.js:300 | No printable ASCII character (letters, digits, punctuation such as `/`) is white space. |
| Text.ToLower | script.js:229 | Lower-casing keeps the length and leaves no capital letter. Each capital becomes its own lower-case letter, and every other character is kept. |
| Text.Trim | script.js:229 | `trim` never lengthens its input. |
| Text.TrimHasNoEdgeSpace | script.js:229 | What `trim` returns is empty or starts and ends with a non-space character. |
| Text.TrimSpan | script.js:229 | What `trim` returns is one contiguous stretch of the input, with only white space before and after it. |
| Text.TrimIgnoresPadding | script.js:229 | White space added before and after the input does not change what `trim` returns. |
| Text.TrimIdempotent | script.js:229 | Trimming twice gives the same as trimming once. |
| Text.StripSpaces | script.js:300 | `replace(/\s/g, '')` leaves no white space and never lengthens its input. |
| Text.StripSpacesAppend | script.js:300 | Removing white space distributes over concatenation. |
| Text.StripSpacesOfNoSpace | script.js:300 | A string without white space is returned unchanged. |
| Text.StripSpacesOfAllSpace | script.js:300 | A string of white space only becomes empty. |
| Text.StripSpacesIdempotent | script.js:300 | Removing white space twice gives the same as removing it once. |
| Text.StripSpacesIgnoresInsertedSpace | script.js:300 | Inserting one white-space character anywhere does not change the result. |
| ColorMix.Total | script.js:150 | A channel's sum over the mix is at most 255 times the number of samples. |
| ColorMix.RoundedQuotient | script.js:151-153 | `Math.round(s/n)` is within a half of s/n, halves rounding up. |
| ColorMix.RoundingIsUnique | script.js:151-153 | Only one integer lies in that half-open window, so the rounding is fully determined. |
| ColorMix.RoundedMeanIsChannel | script.js:151-153 | The rounded mean of channel values is again a channel value, at most 255. |
| ColorMix.MeanChannel | script.js:151-153 | Each bowl channel is the rounded mean of that channel over the whole mix. |
| ColorMix.Mean | script.js:147-153 | Nothing is computed for an empty mix. Otherwise each of r, g and b is the rounded mean of its channel. |
| ColorMix.SumChannels | script.js:149-150 | The `forEach` loop accumulates exactly the three channel sums of the mix. |
| ColorMix.TotalAppend | script.js:150 | The sum over two runs of samples is the sum of their sums. |
| ColorMix.TotalIgnoresOrder | script.js:150 | Two mixes holding the same samples, in any order, have the same channel sums. |
| ColorMix.MeanIgnoresOrder | script.js:149-153 | The bowl colour depends on which samples were dropped, not on their order. |
| ColorMix.IsPink | script.js:159-164 | The win colour: red above 200, green and blue strictly between 100 and 180, and green and blue less than 30 apart. Red is then strictly the strongest channel. |
| ColorMix.MeanOfRepeated | script.js:149-153 | Dropping one colour any number of times shows exactly that colour. |
| ColorMix.NearMissExample | script.js:149-164 | (255,0,0), (255,200,150) and (255,150,150) average to (255,117,100), which does not win because blue is not above 100. |
| ColorMix.WinningExample | script.js:149-164 | (255,130,140) and (185,150,150) average to (220,140,145), which wins. |
| ColorMix.MixPuzzle.constructor | script.js:78-79 | The mix starts empty and the bowl shows no colour. |
| ColorMix.MixPuzzle.Drop | script.js:129-136 | A non-empty payload appends exactly one sample. Ring 1 is unlocked and "p2-text" scheduled exactly when the new mean is pink (r > 200, 100 < g < 180, 100 < b < 180, \|g − b\| < 30). Then the puzzle switches off; otherwise nothing is unlocked. |
| ColorMix.MixPuzzle.CalcMix | script.js:145-168 | An empty mix changes nothing. Otherwise the bowl shows the mean, and a pink mean switches the puzzle off and unlocks ring 1. |
| ColorMix.MixPuzzle.Reset | script.js:138-142 | Before a win, reset empties the mix and the bowl shows no colour. |
| Debate.BaneCards | script.js:172-179 | Exactly the second, fourth and fifth arguments are banes. |
| Debate.Without | script.js:206 | Taking a card out of a container removes all of its occurrences and keeps every other card. |
| Debate.Receive | script.js:206 | A zone that is the target of `appendChild` holds the card exactly once, as its last card; any other zone no longer holds it. Every other card's count is unchanged. |
| Debate.CountBanes | script.js:215-217 | The counting loop of `checkP2Win` returns the number of bane cards in the zone. |
| Debate.BaneCountIsBanesIn | script.js:215-217 | In a zone without repeats, the count is the number of distinct banes there; boons neither add nor subtract. |
| Debate.WinIffAllBanes | script.js:213-218 | In a zone without repeats, "at least three banes" holds exactly when every bane is there. |
| Debate.MoveKeepsPartition | script.js:204-206 | After `appendChild`, every card is still in exactly one container, once. The moved card is in the target zone, and every other card is where it was. |
| Debate.DebatePuzzle.constructor | script.js:181-196 | Any shuffle of the six cards is dealt into the stack; both zones start empty. |
| Debate.DebatePuzzle.Append | script.js:206 | The card leaves its container and becomes the last card of the target zone. No other card changes place. |
| Debate.DebatePuzzle.CheckWin | script.js:213-222 | Ring 2 is unlocked and "interlude" scheduled exactly when all banes are in the right zone. Then the puzzle switches off. |
| Debate.DebatePuzzle.Drop | script.js:201-209 | A drop while a card is being dragged moves it to the zone and runs the win check. With nothing dragged, or after the win, nothing changes. |
| Jigsaw.Normalize | script.js:229 | The value compared with the answer is the input lower-cased, then trimmed. It is never longer than the input and has no white space at either end. |
| Jigsaw.Answers | script.js:229-232 | The riddle comparison: the normalised input equals the expected answer exactly. An answer longer than the input never matches. |
| Jigsaw.AnswersIgnorePadding | script.js:229-232 | White space around a riddle answer does not change whether it is accepted. |
| Jigsaw.AnswersIgnoreCase | script.js:229-232 | Typing capitals does not change whether an answer is accepted. |
| Jigsaw.NormalizedHasNoCapitals | script.js:229 | The compared value has no capital letters. |
| Jigsaw.CapitalisedAnswerUnreachable | script.js:229-232 | An expected answer containing a capital letter can never be matched. |
| Jigsaw.PaddedAnswerUnreachable | script.js:229-232 | An expected answer starting or ending with white space can never be matched. |
| Jigsaw.CountCorrect | script.js:273-287 | The loop of `checkJigsawWin` counts the slots holding the piece of their own index. |
| Jigsaw.FullCountIffAllInPlace | script.js:277-289 | The count equals the number of slots exactly when every slot holds its own piece. |
| Jigsaw.WinIffSolved | script.js:272-289 | On four slots the count is 4 exactly for the solved board; no other arrangement wins. |
| Jigsaw.Place | script.js:258 | After `slot.appendChild(piece)` the piece is in the slot and in no other slot. Every other piece keeps its slot. |
| Jigsaw.PlaceKeepsRevealed | script.js:256-258 | Placing a revealed piece keeps every piece on the board revealed. |
| Jigsaw.SolvedNeedsAllRiddles | script.js:242-291 | If every piece on the solved board is revealed, all four riddles have been answered. |
| Jigsaw.PlaceKeepsEachPieceOnce | script.js:256-258 | Placing a piece in an empty slot keeps every piece in at most one slot. The placed piece is in that slot only, and no other piece moves. |
| Jigsaw.JigsawPuzzle.constructor | script.js:225-264 | No piece is revealed and all four slots start empty. |
| Jigsaw.JigsawPuzzle.Input | script.js:228-244 | A matching answer reveals piece p; nothing is ever hidden again, so the revealed set only grows. |
| Jigsaw.JigsawPuzzle.Drop | script.js:251-262 | An unknown piece id, an occupied slot or a finished puzzle leaves everything unchanged. Otherwise the piece moves into the slot and the win check runs. Each piece stays in at most one slot, and every placed piece is revealed. |
| Jigsaw.JigsawPuzzle.CheckWin | script.js:272-293 | Ring 3 is unlocked and "p4-text" scheduled exactly when slot i holds piece i for every i. Then the puzzle switches off. |
| DateCheck.AcceptsDate | script.js:300-301 | The date test: with all white space removed, the input reads "03/07" or "0307". An accepted input has at least four characters. |
| DateCheck.AcceptsDateIgnoresSpace | script.js:300-301 | White space typed anywhere in the date does not change the verdict. |
| DateCheck.SlashedDateAccepted | script.js:300-301 | "03/07" is accepted. |
| DateCheck.PlainDateAccepted | script.js:300-301 | "0307" is accepted. |
| DateCheck.SpacedDateAccepted | script.js:300-301 | "03/07" with any white space before, between or after its parts is accepted. |
| DateCheck.RejectedDates | script.js:300-301 | "3/7" and "March 7" are rejected. |
| DateCheck.CheckDate | script.js:299-306 | Acceptance is exactly "03/07" or "0307" after white space is removed. An accepted date unlocks ring 4 and schedules "finale"; a rejected one changes no state. |

## Left out

- `AudioEngine` (script.js:4-75) is not modelled: oscillators, gain ramps, background music and the mute button are audio I/O with floating point.
- The `.next-btn` handlers (script.js:86-93) and the `.yes-btn` alert (script.js:309-314) are not modelled. The former are plain `transitionTo` calls, which `Stage.TransitionTo` covers.
- Styling is left out: the bowl's hint text, the drag-over highlight, the `dragging` class and the red flash of a rejected date with its 500 ms timer. `MixPuzzle.shown` stands for the bowl colour.
- Real time is left out. The delays are explicit steps, so the model does not say when a callback fires, only in which order.
- The shuffle (script.js:181) uses `Math.random`. The constructor of `DebatePuzzle` takes the order as a parameter and accepts any permutation of the six cards.
- Parsing the colour payload with `rgb.split(',').map(Number)` (script.js:133) can yield NaN or values outside [0, 255] for a malformed payload. Samples are taken as integer triples in [0, 255]. An empty payload is `None`.
- Text.ToLower: only ASCII capitals are lower-cased, unlike `toLowerCase`, which maps all of Unicode. The expected answers live in the page markup, which is not part of this model.
- Jigsaw.JigsawPuzzle.Drop: the drag payload is a string in the page. It is modelled as an integer, and any value other than 0 to 3 names no piece. The handler itself does not check that the piece was revealed. The only source of an `id` payload is the `dragstart` listener that `setupPieceDrag` (script.js:266-269) attaches when a riddle is answered (script.js:243). So `Drop` takes a piece id only for a revealed piece, and `JigsawPuzzle.Valid` keeps every placed piece revealed.
- The riddle inputs are not switched off by the jigsaw win, because typing is not a pointer event. `JigsawPuzzle.Input` therefore has no `enabled` gate.
- ColorMix.MixPuzzle.Reset: gated by `enabled` like the drop, on the assumption that the reset button sits inside the puzzle area that a win switches off. Reset is meant to be available only before a win; the page markup is not part of this model.
- A ring element missing from the page would make `unlockRing` throw before it schedules anything. The model assumes all four rings exist.
- Riddle i reveals piece i. The pairing of inputs and pieces lives in the page markup.
