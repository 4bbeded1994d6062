/** The phase every game screen is in: the target is being shown, the player is answering,
    or the verdict is on screen. Each screen declares this union as
    `'showing' | 'input' | 'result'`. */
module GamePhase {
  datatype Phase = Showing | Input | Result
}
