# Find the cat — a verified model of the game core

The game hides a cat in a row of boxes. After every wrong guess the cat moves to a neighbouring box. On request the game also shows a "superposition" belief: for each box, how likely the cat is to be there. This project models the two parts of `src/App.tsx` that hold logic and proves properties of them:

- **`Superposition`** (`superposition.dfy`) models `calculateSuperpositions`. After a miss at `guessedPosition`, box `i` gets one "quantum cat" from each neighbour `i - 1` and `i + 1` that lies in the row and is not the guessed box. The counts are then divided by their total, `imaginaryCatCount`. `CalculateSuperpositions` is a method with the source's two loops. The first loop writes the counts into a new array while the total builds up. The second loop divides the array in place. The method is proved equal to the specification function `Superpositions(n, guess)`. That function depends only on the length of the previous belief, so the values of the previous belief are never read. The model also proves:
  - each count is the number of boxes that send a cat into that box, so it is at most 2;
  - the total has a closed form: `2(n-1)` minus one for each neighbour link that leaves the guessed box, which happens only when the guess is in the row; so the total is at least 1 when there are two or more boxes;
  - the result is a probability distribution;
  - the two worked examples in the source's comments hold, plus a five-box example.
- **`CatGame`** (`game.dfy`) models the state of the `App` component as the class `Game`, with the fields `numberOfBoxes`, `catPosition`, `days`, `superpositions` and `isWin`. Its methods model the two handlers:
  - `SetBoxes` models `setBoxes`;
  - `GuessCatPositionOnBox` models `guessCatPositionOnBox`, with the cat's move in `PickAdjacentBox`.

  The class invariant `Valid()` says:
  - the belief has one entry per box;
  - the belief is a probability distribution whenever there is a box;
  - the cat is in the row;
  - the day counter is at least 1.

Every `Math.random()` becomes a parameter `random` with `0 <= random < 1`. `RandomIndex(random, len)` is `Math.floor(random * len)`, so each contract holds for every value the generator can return. Probabilities are exact `real`s, not IEEE doubles.

Behaviour of the code worth knowing:
- `guessCatPositionOnBox` never reads `isWin`, so a later miss still advances the day and moves the cat (see `GuessAfterWin`).
- A cat with no in-range neighbour gets an empty `choices`, and its position becomes `undefined` (see Left out).
- The code accepts `setBoxes(0)`, so the model allows an empty row. Its belief is `[]`, and the cat is at index 0, because `Math.floor(random * 0)` is 0.

## Model

| member | source | states |
|---|---|---|
| `Superposition.CalculateSuperpositions` | src/App.tsx:22-43 | The result has the input's length and equals `Superpositions(length, guess)`, so it depends only on the length and never on the previous belief's values. Every entry is in [0, 1], and with at least two boxes the entries sum to exactly 1. |
| `Superposition.Superpositions` | src/App.tsx:25-41 | The normalised belief for `n` boxes has one entry per box. It is defined for every length except 1, where the source divides 0 by 0. |
| `Superposition.Normalise` | src/App.tsx:39-41 | The normalisation loop keeps the length and turns entry `i` into `count[i] / total`. |
| `Superposition.NeighbourCountCountsSenders` | src/App.tsx:26-33 | The count of box `i` equals the number of boxes `j` in {i-1, i+1} with `0 <= j < n` and `j != guess`, so it is at most 2. The guessed box still receives cats from its own neighbours. |
| `Superposition.TotalCountClosedForm` | src/App.tsx:24-36 | `imaginaryCatCount`, the sum of all counts, is `2(n-1)` minus one for each neighbour link leaving the guessed box: every box except the guess sends one cat to each in-range neighbour. A guess outside the row removes nothing, so for `n = 5` a guess of `-1` or `5` gives 8. |
| `Superposition.TotalCountPositive` | src/App.tsx:35-40 | With at least two boxes the total is at least 1, so the normalisation never divides by zero. |
| `Superposition.SuperpositionsAt` | src/App.tsx:26-40 | Entry `i` of the result is the number of senders into box `i` divided by the total. |
| `Superposition.NormaliseIsDistribution` | src/App.tsx:35-41 | Dividing counts by their own sum gives entries in [0, 1] that sum to 1. |
| `Superposition.SuperpositionsIsDistribution` | src/App.tsx:22-43 | For every row of at least two boxes and every guess, the updated belief is a probability distribution. |
| `Superposition.ThreeBoxesGuessMiddle` | src/App.tsx:7-13 | Three boxes with a guess at the middle one give counts [0, 2, 0] and belief [0, 1, 0]. |
| `Superposition.ThreeBoxesGuessEdge` | src/App.tsx:15-21 | Three boxes with a guess at the first one give counts [1, 1, 1] and belief [1/3, 1/3, 1/3]. |
| `Superposition.FiveBoxesGuessMiddle` | src/App.tsx:26-41 | Five boxes with a guess at box 2 give counts [1, 1, 2, 1, 1] and belief [1/6, 1/6, 2/6, 1/6, 1/6]. |
| `CatGame.RandomIndex` | src/App.tsx:78 | `Math.floor(random * len)` with `random` in [0, 1) picks an index in [0, len). When `len` is 0 it gives 0. |
| `CatGame.UniformIsDistribution` | src/App.tsx:62 | The starting belief, `n` copies of `1/n`, is a probability distribution for every `n >= 1`. |
| `CatGame.ChoicesAreNeighbours` | src/App.tsx:71-77 | The cat's choices are exactly the in-range boxes next to it: two in the middle of the row, one at either end, none in a one-box row. |
| `CatGame.Game.constructor` | src/App.tsx:47-53 | The component starts with 5 boxes, the cat at a random box among them, day 1, no win and the uniform belief `1/5`. |
| `CatGame.Game.SetBoxes` | src/App.tsx:54-63 | A negative count changes nothing. Any other count `n` resets the game: `numberOfBoxes = n`, the cat at `floor(random * n)` (in the row when `n >= 1`), `days = 1`, no win, and `n` copies of `1/n` as the belief. The invariant is kept. |
| `CatGame.Game.GuessCatPositionOnBox` | src/App.tsx:64-83 | A hit sets `isWin` and leaves the days, the cat, the box count and the belief unchanged. A miss adds exactly 1 to `days`. It moves the cat to the neighbour that `random` picks from `choices`, exactly one box away, with no wrap-around. It replaces the belief by `Superpositions(numberOfBoxes, guess)` and does not touch `isWin` or the box count. The invariant is kept. |
| `CatGame.Game.PickAdjacentBox` | src/App.tsx:70-78 | The new cat position is `choices[floor(random * length of choices)]`. It lies in the row and differs from the old position by exactly 1. |
| `CatGame.GuessAfterWin` | src/App.tsx:64-69 | A hit followed by a miss leaves the player winning, but the miss still advances the day. The handler never checks `isWin`. |

## Left out

- Rendering is left out because it holds no game logic. This covers the JSX, the navigation bar, the theme toggle, the modal and the layout (src/App.tsx:85-151).
- `showCat` and `showSuperpositionProbabilities` are left out. They are display flags that no game logic reads.
- The percentage formatting with `toFixed(1)` is left out. It only turns a float into display text.
- `Math.random` itself is left out. It becomes the parameter `random` in [0, 1). The model does not describe the generator or its distribution.
- IEEE floating point is left out. Belief values are exact reals.
- Superposition.CalculateSuperpositions: requires a length other than 1. At length 1 the total is 0, and the source fills the result with NaN by computing 0 / 0. Such a belief cannot be expressed with reals.
- CatGame.Game.GuessCatPositionOnBox: requires at least two boxes for a miss. With fewer boxes, `choices` is empty and the source sets the cat's position to `undefined`. A model over integers cannot represent that. When a player can only click boxes in the row, this never happens: in a one-box row the only box holds the cat, and an empty row offers nothing to click.
- Superposition.CalculateSuperpositions: the source grows its array with `push`. The model allocates the array at its final length and writes the entries in the same order.
- React's state batching and closure capture are left out. Each handler is modelled as one atomic update of the component's state.
