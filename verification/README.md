# LC-Chess in Dafny

LC-Chess is a two-player chess program for MINIX. Two copies of it run against
each other over a serial line. This project models the program under
`proj/src` and proves properties of the model; `dafny verify dfyconfig.toml`
checks all of it.

## What is modelled

**One program.** `Game` is the state a program keeps (game state, colour, turn
flag, half-parsed message, 64 cells pointing to 32 pieces, highlighted squares)
and what each handler of `main.c` does to it, as functions. `Handlers` is the
imperative form: a class with the globals and static locals of `main.c`, the
board of `Boards`, the queues of `SerialPort`, updated in place; every handler
is proved to compute the function of `Game`. `EventLaws` says what the start and each
event come to in keys, pixels and bytes, without those functions.

**Two programs and two wires.** `Network` is a step system: a step hands one byte
to a wire, takes one byte off a wire, handles one event, or cleans up after the
main loop. A run is any interleaving of the steps of both peers.
`Simulation.Simulate` runs two of the imperative programs on any schedule and is
proved to end in the state of the step system, so every theorem about runs is
one about the imperative programs. `Protocol` names the phases of a game,
`NetworkInvariant` shows that every step leads from phase to phase, `Theorems`
and `Handshake` draw the conclusions, for either peer. `GameRecord` and
`LawfulGames` read the two boards as positions of one game. `MoveRuns` plays a whole move
as a run, from the drag to the last byte read; `Games` and `Witness` build on it the
games that show where the theorems stop. `PawnFlags` follows the flag on which a
pawn's double step depends.

**Legality kept in pixels.** `Framebuffer` draws into a flat byte array.
`Highlighting` paints the squares of a piece orange, as `possiblePosition` does,
and the drop test reads three bytes back. At every moment each tile of the buffer
is orange in all its pixels or in none (`Handlers.Program.TilesShowTheMoves`). `Chess` states Articles 3.1 to 3.8 of
the FIDE Laws of Chess independently of the program and proves when the two
agree.

**What feeds them.** The ring buffer, piece animation, the mouse packet decoder,
the cursor and the event buffer, each as the class that updates its fields and
a specification it is proved against.

## What holds, and where it stops

* Turns and the wire: in every run in which the two handshakes do not cross there
  is never more than one turn, players alternate starting with White, at most six
  bytes are under way in a direction, and none is lost.
* Crossing is decided before the step: a player presses ENTER while the other's
  VM_CONNECTED has been sent but not all of it has arrived. If that happens, no
  continuation ever makes either peer wait for the other's choice; `Witness` gives
  a run in which both players hold the turn, one in which a program dereferences
  a null piece, and one that comes to rest with different boards.
* Replicas: square (column 0, row 0) is encoded as byte 0, which is also what an
  empty queue yields, so the receiver skips it. For a single move, the receiver
  ends with the sender's board if and only if neither square is that corner
  (`Theorems.MoveArrivesIff`); as a run, from any quiet reached state with equal
  boards, a move and the delivery of its bytes leave equal boards under the same
  condition (`MoveRuns.DeliveredIffNoCorner`), and `Games.CornerDivides` is a game in
  which the boards part. Replica agreement, absence of null dereferences and
  winner agreement are proved for every uncrossed run in which no move touches it.
* After a corner move those three can fail. A whole message is a null dereference
  exactly when neither of its squares is the corner and the first is empty on the
  receiver's board (`MoveRuns.MessageCrashesIff`); as a run, from any quiet reached
  state, a delivered move leaves the receiver dead in exactly that case and out of
  the game when it takes a king there, and the turn passes exactly when the receiver
  plays on (`MoveRuns.DeliveredFate`). `Games.ReceiverDies` is a game in which the
  receiver dies and the turn never arrives, `Games.TwoWinners` one in which White
  takes the king by a move from the corner, which Black does not see, and both leave
  having won. That there is never more than one turn holds in these games too.
* One game: in every uncrossed run without corner moves there is a record of
  pseudo-legal moves, made by White and Black in turn, one for each move made, and
  both boards show its last position, but for the one not yet read by the player who
  did not make it (`GameRecord.BoardsShowOneGame`). If neither peer snaps a pawn, as
  explained below, the record is a game by Articles 3.1 to 3.8 with the double step
  allowed only from a pawn's first square (`LawfulGames.BoardsShowALawfulGame`).
* Captures: in those runs the only piece a board ever loses is one of the team that
  did not move, on the board of the mover and on that of the receiver. After a corner
  move this fails: in `Games.OwnPieceTaken` a move of White's takes White's own knight
  off Black's board. That no piece appears and at most one disappears holds in every
  uncrossed run.
* Legality: a drop is accepted exactly when it is pseudo-legal, except that a
  white pawn cannot take the black king, because the diagonal test of a white pawn
  compares the enumeration value with 5 and leaves 5 out (`proj/src/board.c:225`);
  `Games.KingIsSpared` is a game that reaches such a position.
  "First move" of a pawn means that no animated step of it has been made, which is
  what the program records (`proj/src/piece.c:121`). In every run without corner moves
  in which no frame with animation off finds an own pawn sent off with its flag down,
  that flag says, on the player's turn, exactly that the pawn has left its own square,
  so the moves sent are those of the Laws (`PawnFlags`). A frame that does find one
  always breaks it, and the flag stays wrong until the player moves again
  (`PawnFlags.SnapLasts`); `Games.StepsTwice` is a game in which a pawn may make a
  second double step.
* Reads past the 64 cells by pawns on the last ranks and by diagonal rays may return
  anything: the painted squares are the same.

Where comments in the repository and the code disagree the model follows the code:
`popEvent` is documented to return the first element
(`proj/src/event_queue.h:77`) and returns the newest one.

## Model

| member | source | states |
|---|---|---|
| Theorems.TurnToken | proj/src/main.c:222-225 | in every uncrossed run there is at most one turn, counting YOUR_TURN and WHITE bytes under way; exactly one from the colour choice until a peer cleans up; a held piece implies the turn |
| Theorems.TurnsAlternate | proj/src/main.c:336-340 | whoever has the turn, the moves made so far are equal if that is White and differ by one if it is Black, so White moves first and the players alternate |
| Theorems.NoByteLost | proj/src/serialPort.c:162-189 | at most six bytes under way in a direction, room for every byte that arrives or is sent, and the bytes taken are a prefix of those sent |
| Theorems.ReplicasAgree | proj/src/main.c:218-253 | without corner moves, at every moment from the start of the program on, the boards are equal or exactly one move is under way whose execution makes them equal, White's first move before Black knows its colour included; reading what is under way always makes them equal |
| Theorems.QuietBoardsEqual | proj/src/main.c:247-249 | with nothing under way both boards hold the same pieces |
| Theorems.QuietGames | proj/src/main.c:195-244 | with nothing under way between two players, the game goes on for both, or one has taken the king and the other has left having lost |
| Theorems.MoveArrivesIff | proj/src/main.c:226-250 | the receiver of a whole message ends with the sender's board if and only if neither square is (0, 0) |
| Theorems.CornerIsSkipped | proj/src/main.c:226-231 | a message with a (0, 0) square leaves the receiver's board as it was |
| Theorems.NoCrash | proj/src/main.c:247 | no uncrossed run without corner moves dereferences a null piece |
| Theorems.WinnerAgreement | proj/src/main.c:239-244 | both kings are on both boards until one is taken, and two peers at EXIT never have the same value of won |
| Theorems.SentMovesAreLegal | proj/src/main.c:310-341 | in every uncrossed run a release sends a move exactly when it is pseudo-legal on the sender's board, except for the white pawn and the black king |
| Theorems.HighlightsAreMoves | proj/src/main.c:288-293 | at every moment the orange squares are the move set of the held piece on the current board, and there are none when nothing is held |
| Theorems.ScreenFollowsBoard | proj/src/main.c:345-357 | every piece not held is drawn on, or moving towards, the one square that holds it |
| Theorems.PiecesConserved | proj/src/main.c:328-329 | in every uncrossed run and whatever byte is read, no event adds a piece, at most one disappears, and one taken by the player's own move is of the other team |
| Theorems.OnlyOpponentsTaken | proj/src/main.c:239-249 | without corner moves the one piece an event can take off a board is of the team that did not move: the other player's when this peer drops, this player's own when it has read a move |
| Theorems.MovesAreFair | proj/src/main.c:226-249 | without corner moves every change of a board, whether by a drop or by a byte read, is a pseudo-legal move on that board of a piece of the mover's team to a square that holds none of its own |
| GameRecord.BoardsShowOneGame | proj/src/main.c:218-377 | without corner moves there is a record of pseudo-legal moves by White and Black in turn, one for each move made; the board of the player who moved last shows its last position, the other that one or the one before |
| GameRecord.QuietBoardsShowIt | proj/src/main.c:218-377 | with nothing under way both boards show the last position of the record |
| LawfulGames.BoardsShowALawfulGame | proj/src/main.c:218-377 | if besides no frame with animation off finds an own pawn sent off with its flag down, every move of the record is pseudo-legal with the double step keyed on the square the pawn started on |
| MoveRuns.DragAndDrop | proj/src/main.c:266-377 | pressing at any pixel over a piece and letting it go at any pixel over a square that accepts it moves it, passes the turn and sends the message |
| MoveRuns.Deliver | proj/src/main.c:218-254 | bytes carried over the wire one at a time, with a frame after each, leave the receiver as reading them in turn does |
| MoveRuns.PlayMove | proj/src/main.c:218-377 | from rest with nothing under way, a move that the receiver survives and its delivery lead to nothing under way and the turn on the other side; both boards have carried the move out, the receiver's only if it touches no corner, and the mover is at rest unless it took the king |
| MoveRuns.DeliveredIffNoCorner | proj/src/main.c:226-250 | from any quiet reached state with equal boards, a move and the delivery of its four bytes leave equal boards if and only if neither square is (0, 0) |
| MoveRuns.DeliveredFate | proj/src/main.c:218-254 | from any quiet reached state a delivered move leaves the receiver dead, out of the game or playing, each in exactly the stated case, its board accordingly, and the turn with it exactly if it plays on |
| MoveRuns.MessageCrashesIff | proj/src/main.c:226-250 | on any core, a whole message is a null dereference if and only if neither square is the corner and the first is empty on the receiver's board |
| Games.GameBegins | proj/src/main.c:127-157 | a run with uncrossed handshakes after which White and Black face each other on the initial board |
| Games.CornerDivides | proj/src/main.c:226-231 | an uncrossed run after which both peers are in the game, nothing is under way, and the boards differ |
| Games.OwnPieceTaken | proj/src/main.c:239-249 | an uncrossed run with a corner move after which a move of White's takes White's own knight off Black's board |
| Games.KingTaken | proj/src/main.c:195-244 | an uncrossed run without corner moves that ends with both peers at EXIT, one of which has won |
| Games.ReceiverDies | proj/src/main.c:247 | an uncrossed run with a corner move after which a program has dereferenced a null piece and neither player has the turn |
| Games.TwoWinners | proj/src/main.c:195-244 | an uncrossed run with a corner move that ends with both peers at EXIT, both of which have won |
| Games.KingIsSpared | proj/src/board.c:222-234 | an uncrossed run to a position in which White's pawn may take the black king by the rules, and dropped on it at any pixel sends nothing |
| Games.StepsTwice | proj/src/piece.c:124-134 | a run, animation off, in which a pawn that has left its square may step two squares again |
| PawnFlags.FlagMeansMoved | proj/src/piece.c:118-122 | in runs without corner moves in which no frame with animation off finds an own pawn sent off with its flag down, an own pawn's flag is up on its player's turn exactly if it has left its home square |
| PawnFlags.SentMovesObeyTheLaws | proj/src/main.c:310-341 | in those runs a release sends a move exactly when it is pseudo-legal with the double step keyed on the home square, but for the white pawn and the black king |
| PawnFlags.HandleFlags | proj/src/main.c:548-573 | every handler keeps the relation between flags and squares unless it is such a frame or reads a move of an own piece |
| PawnFlags.SnapBreaks | proj/src/piece.c:124-134 | every such frame, whatever it reads, leaves the pawn, unless that takes it, off its square with its flag down, and so breaks that relation |
| PawnFlags.SnapLasts | proj/src/piece.c:124-134 | in every continuation without corner moves it stays so until its player's next move |
| Handshake.OneSided | proj/src/main.c:458-469 | in uncrossed runs never two choosers nor two waiting for the choice, whoever waits has a chooser opposite, and players in the game have opposite colours |
| Handshake.OneChooser | proj/src/main.c:460-468 | once one peer chooses, no continuation makes the other a chooser or this one wait |
| Handshake.HandshakeOutcome | proj/src/main.c:137-143 | if two handshakes cross, neither peer ever waits for the choice; a waiting peer shows that none crossed, two choosers that they did |
| Handshake.Dichotomy | proj/src/main.c:141-143 | every run ends in one of two classes of states, decided by whether a step crossed |
| Handshake.CrossingStarts | proj/src/main.c:141-143 | the crossing ENTER leaves a greeting under way to each peer |
| Witness.CrossedBothHoldTheTurn | proj/src/main.c:522-530 | a run after which both players are White and hold the turn |
| Witness.CrossedCrash | proj/src/main.c:226-247 | a run after which a program has dereferenced a null piece |
| Witness.LeftoverCrashes | proj/src/main.c:227-247 | a leftover greeting and colour byte of either colour, read as a move, are a null dereference if and only if the square (7, 5) is empty |
| Witness.CrossedDivides | proj/src/main.c:226-250 | a crossed run after which both players are in the game, nothing is under way, and the boards differ |
| NetworkInvariant.StepKeeps | proj/src/main.c:652-734 | every step of either peer that does not cross keeps the invariant of the pair |
| NetworkInvariant.RunKeeps | proj/src/main.c:652-734 | so does every run |
| NetworkInvariant.EventFlow | proj/src/main.c:711-734 | after an event the bytes under way and the history of both directions are those before it plus what was sent |
| NetworkInvariant.CloseKeeps | proj/src/serialPort.c:123-137 | clearing the port after the main loop keeps the invariant |
| Protocol.LeadsPhase | proj/src/main.c:163-386 | every event of the peer that leads goes from phase to phase |
| Protocol.FollowsPhase | proj/src/main.c:163-386 | so does every event of the other peer |
| Protocol.TransitFollows | proj/src/main.c:218-254 | the receiver takes a move message byte by byte and gets the turn with its last byte |
| Protocol.ColourRead | proj/src/main.c:409-420 | the waiting peer takes the colour it is given, and White gets the turn |
| GameInvariants.HandleKeeps | proj/src/main.c:548-573 | every handler keeps: pieces on at most one square, kinds fixed, orange squares equal to the move set, screen in step with the board |
| GameInvariants.MoveConserves | proj/src/main.c:248-249 | the send path and the receive path write the cells in different orders with the same result, which keeps every piece but the one on the target |
| GameInvariants.UpdateAt | proj/src/board.c:125-142 | a board update advances each piece on the board by one frame and no other piece |
| GameInvariants.DropIffLegal | proj/src/main.c:310-368 | under the invariant the drop test accepts exactly the pseudo-legal moves, with the one exception |
| GameInvariants.ReleaseScreen | proj/src/main.c:319-329 | after a release every piece is drawn on or heading for its square |
| GameInvariants.ApplyScreen | proj/src/main.c:247-249 | so it is after a received move |
| HandlerSummary.PlayingSummary | proj/src/main.c:163-386 | an event in the game is quiet, or one of the player's own moves, or the effect of one received byte |
| HandlerSummary.OnlyConnectClears | proj/src/main.c:137-143 | the port is cleared exactly by the ENTER that connects |
| HandlerSummary.OnlyFramesRead | proj/src/main.c:203-226 | a game event never clears the port and uses a byte only on a frame |
| Simulation.Simulate | proj/src/main.c:652-734 | two of the imperative programs and two wires are, after any schedule, in the state of the step system |
| Simulation.StepProgram | proj/src/main.c:708-734 | one step of the step system, carried out on a program and its wires |
| Simulation.InputHandled | proj/src/main.c:548-573 | what inputHandler does to state and queues is the event step of the step system |
| Handlers.Program.constructor | proj/src/main.c:73-86 | the initial globals and the initial board |
| EventLaws.StartingPosition | proj/src/board.c:56-92 | rows 0 and 7 hold rook, knight, bishop, queen, king, bishop, knight and rook, rows 1 and 6 the pawns, and the other squares are empty |
| EventLaws.StartingPlaces | proj/src/board.c:17-25 | every piece stands still at 65 + 59 col, 64 + 59 row |
| EventLaws.StartingState | proj/src/main.c:73-86 | nobody has a colour or the turn, nothing is held or highlighted, animation is on |
| EventLaws.KeysEditTheName | proj/src/main.c:127-157 | a key let go takes a letter away (0x8e), connects with 0xFA once there is a letter (0x9c), or adds a letter up to eight; a key going down does nothing |
| EventLaws.TypeAndErase | proj/src/main.c:132-155 | letters typed and then erased leave the first eight less those erased |
| EventLaws.NamesFit | proj/src/main.c:76-155 | in every run the name has at most eight letters, and a peer that has connected has at least one |
| EventLaws.GreetingByByte | proj/src/main.c:454-471 | a waiting program answers 0xFA with 0xFD and chooses, waits for the choice on 0xFD, and ignores all else |
| EventLaws.ColourByClick | proj/src/main.c:480-530 | for every pixel: held down in the upper button the player is Black without the turn and 2 is sent, in the lower one White with the turn and 1 is sent, anywhere else nothing happens |
| EventLaws.OnlyClicksChoose | proj/src/main.c:514-540 | no other event chooses |
| EventLaws.ColourByByte | proj/src/main.c:405-426 | 2 makes the player White with the turn, any other byte but 0 Black without it |
| EventLaws.ColoursAreOpposite | proj/src/main.c:405-530 | whatever button one player clicks, the other gets the other colour, and White has the turn |
| EventLaws.HeldFollows | proj/src/main.c:268-270 | a held piece is drawn 29 pixels left of and above the cursor, and nothing else changes |
| EventLaws.PressGrabs | proj/src/main.c:271-297 | for every pixel of a square, a press grabs the piece on it exactly if it is the player's own and the player is on turn, raises it and highlights its squares |
| EventLaws.PressBeside | proj/src/main.c:277 | a press beside the board grabs nothing |
| EventLaws.NothingGrabbed | proj/src/main.c:271 | nor does the mouse without the turn or with the button up |
| EventLaws.LetGoPlays | proj/src/main.c:299-377 | let go over a highlighted square not held by its team, a piece sets out from the pixel position of its old square for that of the new one, the two cells change, the four bytes are sent and the turn is over |
| EventLaws.LetGoReturns | proj/src/main.c:345-376 | let go anywhere else it is back on its old square, and nothing else has happened |
| EventLaws.KeysInTheGame | proj/src/main.c:257-264 | the key with break code 0xac switches the animation, and no other key does anything |
| EventLaws.EndIsNoticed | proj/src/main.c:195-198 | after a captured king the next event, whatever it is, ends the game as won |
| EventLaws.FramesReadBytes | proj/src/main.c:216-254 | what each byte value does to the parser, the cells, the turn and the end of the game |
| EventLaws.FramesMovePieces | proj/src/main.c:201-249 | a frame advances every piece on the board by one step; a piece whose move is read in it gets its target and sets out with the next frame |
| EventLaws.TakesOneByte | proj/src/main.c:216-467 | a frame of a waiting, colour-waiting or playing program takes one byte off the receive queue, no other event takes any |
| EventLaws.AfterTheEnd | proj/src/main.c:652-755 | a dead program does nothing, one that has left only sends what is queued and cleans up |
| EventLaws.QueueOfTen | proj/src/serialPort.c:229-233 | bytes join a queue in order, as many as ten places hold |
| Handlers.Program.EndDrag | proj/src/main.c:375-376 | after a drag every pixel of every tile has the tile's own colour again |
| Handlers.Program.TilesShowTheMoves | proj/src/main.c:293-376 | at every moment every pixel of a highlighted square is orange and every other tile pixel has its own colour |
| Handlers.Program.InputHandler | proj/src/main.c:548-573 | the new state, both queues and the byte taken are those of the handler for the current state |
| Handlers.Program.NameKey | proj/src/main.c:127-157 | a key edits the name; ENTER with a name clears the port, sends VM_CONNECTED and waits |
| Handlers.Program.WaitingFrame | proj/src/main.c:454-471 | VM_CONNECTED makes a chooser that answers, RECEIVE_VM_CONNECTED a peer that waits for the choice |
| Handlers.Program.ChoosingMouse | proj/src/main.c:520-537 | a click on a colour starts the game, sends the other colour, and gives White the turn |
| Handlers.Program.ClickPlayer | proj/src/main.c:480-492 | a click counts exactly inside the two buttons |
| Handlers.Program.WaitChoosingFrame | proj/src/main.c:405-426 | the port is read first; any byte but 0 is the colour, and WHITE gives the turn |
| Handlers.Program.Play | proj/src/main.c:163-386 | a pending end of game is noticed first, then the event is handled |
| Handlers.Program.ReceiveMoveByte | proj/src/main.c:218-254 | the message parser |
| Handlers.Program.ApplyReceived | proj/src/main.c:239-249 | a received move is carried out, a king on its target ends the game as lost, an empty origin is a null dereference |
| Handlers.Program.Press | proj/src/main.c:271-297 | a press picks up a piece exactly if it is the player's own and on the board, and highlights its squares |
| Handlers.Program.LetGo | proj/src/main.c:299-377 | a release moves, captures and sends, or puts the piece back; the highlighting is gone |
| Handlers.Program.DropTest | proj/src/main.c:305-316 | the three-byte comparison and the team test decide as the specification does |
| Handlers.Program.Drop | proj/src/main.c:310-374 | what the test decides for cells, piece, turn, end of game and the bytes sent |
| Handlers.Program.PlayingMouse | proj/src/main.c:266-381 | drag, press and release in the order of the source |
| Handlers.Program.PlayingFrame | proj/src/main.c:201-255 | a frame advances the pieces and then reads one byte |
| Handlers.ReleaseInSteps | proj/src/main.c:303-374 | lowering the priority before the drop test does not change what it decides |
| Boards.Board.constructor | proj/src/board.c:36-95 | 32 pieces on their squares, the other cells empty; the buffer is chequered, with the toggle image beside the board and black elsewhere |
| Boards.Board.CreatePiece | proj/src/board.c:17-25 | a new piece at the screen position of its square, and only that cell changes |
| Boards.Board.Update | proj/src/board.c:125-142 | the double loop advances the pieces cell by cell |
| Boards.Board.Carry | proj/src/main.c:248-249 | the two assignments of a received move |
| Boards.Board.Put | proj/src/main.c:328-329 | the two assignments of the player's own move |
| Chess.AcceptsIffLegal | proj/src/board.c:198-378 | for every placement, piece and pair of squares the highlighting with the team test accepts exactly the pseudo-legal moves, except a white pawn taking the black king |
| Chess.PawnSparesKing | proj/src/board.c:224-234 | a white pawn with the black king on its forward diagonal may take it by the rules and is not let, on every placement |
| Chess.RayHitsIff | proj/src/board.c:298-319 | a ray reaches exactly the squares of its line with nothing strictly between |
| Chess.ClearMeansBetween | proj/src/board.c:267-290 | the step-by-step test of a ray says that nothing stands between its ends |
| Chess.QueenIsBishopAndRook | proj/src/board.c:321-373 | the queen's set is the union of the bishop's and the rook's |
| Highlighting.PossiblePosition | proj/src/board.c:198-378 | whatever lies past the cells, the orange squares grow by exactly the squares of the piece; tiles change as a whole, and no pixel outside them changes |
| Highlighting.PaintDiagonals | proj/src/board.c:294-319 | the four-flag loop paints exactly the four diagonal rays |
| Highlighting.PaintStraight | proj/src/board.c:267-272 | a breaking loop paints the piece's own square and exactly one straight ray |
| Highlighting.RayGrows | proj/src/board.c:299-303 | one more step adds the next square exactly while nothing has been met on the board |
| Highlighting.RayStops | proj/src/board.c:269-271 | a ray that has met a piece hits nothing behind it |
| Highlighting.RayLeaves | proj/src/board.c:298-319 | a ray that has left the board does not come back |
| Highlighting.PaintAdvances | proj/src/board.c:214-221 | the advances of a pawn, whatever the reads past the board return |
| Highlighting.PaintBlackCaptures | proj/src/board.c:203-213 | the captures of a black pawn |
| Highlighting.PaintWhiteCaptures | proj/src/board.c:224-234 | the captures of a white pawn |
| Highlighting.PaintKnight | proj/src/board.c:243-253 | the squares of a knight that are on the board |
| Highlighting.KnightSquaresIff | proj/src/board.c:245-252 | they are the squares two and one away |
| Highlighting.PaintKing | proj/src/board.c:254-264 | the squares of a king that are on the board |
| Highlighting.KingSquaresIff | proj/src/board.c:256-263 | they are the adjoining squares |
| Highlighting.PawnSquaresIff | proj/src/board.c:202-242 | captures and advances together are the squares of a pawn |
| Highlighting.PaintedSliders | proj/src/board.c:265-373 | the move sets of bishop, rook and queen as unions of rays |
| Framebuffer.DrawHline | proj/src/videocard.c:95-102 | the line's part on the screen gets the colour and no other pixel changes |
| Framebuffer.DrawRectangle | proj/src/videocard.c:105-112 | so does the rectangle when its corner is on the board, and otherwise nothing happens |
| Framebuffer.DrawImage | proj/src/videocard.c:115-129 | the opaque part of the image on the screen is copied and no other pixel changes |
| Framebuffer.PixelsDisjoint | proj/src/videocard.c:98-99 | different pixels share no byte |
| Framebuffer.TilesDisjoint | proj/src/board.c:113-118 | tiles do not overlap |
| Framebuffer.TilesAre | proj/src/board.c:183-195 | the tiles are 59 by 59 pixels, those the board conversion gives to their squares, and together the board |
| Framebuffer.OrangePixels | proj/src/main.c:310 | in a chequered buffer one orange pixel of a tile tells that all are |
| Framebuffer.RasterOrder | proj/src/videocard.c:98-99 | the buffer holds the screen row by row, three bytes a pixel |
| Framebuffer.RowByRow | proj/src/videocard.c:120 | an image lists its pixels row by row |
| Framebuffer.ColorValues | proj/src/board.c:107-108 | the colours as 24-bit numbers, lowest byte first |
| Framebuffer.PaintSquare | proj/src/board.c:205 | a square's rectangle is its tile, and nothing when the square is off the board |
| Framebuffer.Highlight | proj/src/board.c:245-252 | the set of orange squares grows by that square, if it is one, whose whole tile becomes orange; no other pixel changes |
| Framebuffer.DrawBoard | proj/src/board.c:98-123 | every pixel of every tile is cream or green by the parity of the square, no square is orange, and no pixel outside the tiles changes |
| Framebuffer.IsHighlighted | proj/src/main.c:308-310 | the three bytes are orange exactly when the square is in the highlighted set |
| Framebuffer.DrawToggle | proj/src/main.c:188 | the opaque part of the toggle image is copied to (538, 185), and every tile stays as it was |
| Geometry.BoardXStrip | proj/src/board.c:183-188 | with unsigned wrap, column 0..7 is reported exactly for the pixels of the board strip |
| Geometry.BoardYStrip | proj/src/board.c:190-195 | the same for rows |
| Geometry.BoardInvertsScreen | proj/src/board.c:27-34 | every pixel of a tile maps back to its column and row |
| Geometry.OffBoardStaysOff | proj/src/videocard.c:105-106 | narrowed to 16 bits, the screen coordinate of a column or row -7..14 is on the board exactly for 0..7 |
| Geometry.Margins | proj/src/board.c:46-49 | tile, top and left edge follow from the resolution and the margins |
| Codec.SquareRoundTrip | proj/src/main.c:228-234 | decoding undoes encoding, no square collides with a tag, only (0, 0) becomes 0 |
| Codec.BitsAgree | proj/src/main.c:228-234 | a square goes out as its column shifted by three with its row or-ed in, and every byte is read back with the masks 0x38 and 0x07 |
| Codec.HaveBits | proj/src/main.c:228-234 | that covers every square and every byte |
| Codec.MessageBytes | proj/src/main.c:334-339 | a move goes out as 0xF9, the two squares, 0xF8 |
| PieceMotion.NeverOvershoots | proj/src/piece.c:96-123 | under any switching of animation neither axis overshoots and the target stays |
| PieceMotion.StopsInTime | proj/src/piece.c:96-134 | the piece stands at its target after max(dx, dy) + 1 frames |
| PieceMotion.AnimatedRun | proj/src/piece.c:96-134 | animated throughout it stops on exactly that frame, in the state of the unanimated update but for pawn_moved |
| PieceMotion.AnimatedPath | proj/src/piece.c:96-123 | after n animated frames a moving piece is n pixels further on each axis, or there |
| PieceMotion.SnappedAtOnce | proj/src/piece.c:124-134 | one frame without animation puts it on its target |
| Pieces.Piece.constructor | proj/src/piece.c:20-86 | a still piece at its screen position |
| Pieces.Piece.Update | proj/src/piece.c:96-123 | one pixel on each axis, or the stop, reported once |
| Pieces.Piece.UpdateNoAnimation | proj/src/piece.c:124-134 | the jump to the target |
| Pieces.Piece.MovePiece | proj/src/piece.c:138-145 | target and flags of a piece sent off |
| Pieces.Piece.SetPosition | proj/src/piece.c:148-151 | the position narrowed to 16 bits |
| Pieces.Piece.ChangePriority | proj/src/board.c:176-181 | the priority and the change flag |
| RingBuffer.Exercise | proj/src/queue.c:3-45 | for every capacity up to 255 and every operation sequence the ring answers and ends like a bounded first-in first-out queue |
| RingBuffer.FillAndDrain | proj/src/queue.c:26-45 | bytes come out in the order in which they went in, as many as there was room for, and then zeros |
| RingBuffer.Overfill | proj/src/queue.c:26-45 | for every larger capacity it does not: 256 additions count back to size 0, and the queue answers 0 |
| RingBuffer.ByteQueue.constructor | proj/src/queue.c:3-15 | an empty queue, whatever the capacity |
| RingBuffer.ByteQueue.EndsAgree | proj/src/queue.h:6-12 | rear + 1 and front + size agree modulo the capacity |
| RingBuffer.ByteQueue.Add | proj/src/queue.c:26-34 | the byte joins at the end unless the queue is full |
| RingBuffer.ByteQueue.Remove | proj/src/queue.c:36-45 | the oldest byte, or 0 from an empty queue |
| RingBuffer.ByteQueue.Front | proj/src/queue.c:47-52 | the oldest byte, or 0 |
| RingBuffer.ByteQueue.Rear | proj/src/queue.c:54-59 | the newest byte, or 0 |
| SerialPort.Port.Write | proj/src/serialPort.c:162-173 | a byte leaves in order when the port is ready |
| SerialPort.Port.Read | proj/src/serialPort.c:175-189 | a byte that arrives joins the receive queue if it finds room |
| SerialPort.Port.ReadFromQueue | proj/src/serialPort.c:220-227 | the oldest byte, or 0 |
| SerialPort.Port.AddToTransmitQueue | proj/src/serialPort.c:229-233 | the byte joins the transmit queue if it finds room |
| SerialPort.Port.constructor | proj/src/serialPort.c:117-118 | two empty queues of ten |
| SerialPort.Port.Clear | proj/src/serialPort.c:23-33 | whatever arrives while the port is polled, the receive queue is empty afterwards and the transmit queue as before |
| SerialPort.Port.Drain | proj/src/serialPort.c:131-133 | what has gone out followed by what is queued is what was queued; all of it has gone once the port was ready often enough |
| MouseDecoder.Decoder.Byte | proj/src/mouse.c:26-66 | index, validity flag, partial packet and emitted packet after one byte |
| MouseDecoder.DecodeStream | proj/src/mouse.c:20-68 | for every error-free stream the packets are those of a parser that skips to a byte with bit 3 and takes three |
| MouseDecoder.DecodeEncode | proj/src/mouse.c:38-57 | decoding undoes encoding for movements -256..255 |
| MouseDecoder.BitsMean | proj/src/mouse.c:38-57 | which bit of the three bytes is which button, sign and overflow, and that bit 3 marks a first byte |
| MouseDecoder.ErrorJams | proj/src/mouse.c:63-66 | after an errored byte, whatever follows with or without errors, the index grows by one with every byte and no packet is completed again |
| Pointer.Cursor.Update | proj/src/cursor.c:20-51 | clamped movement and the edges of the button |
| Pointer.Follow | proj/src/cursor.c:20-51 | over a packet sequence the cursor object goes through the positions and button states of the specification and stays on the screen |
| Pointer.EdgesOnly | proj/src/cursor.c:42-49 | over every packet sequence the cursor stays on the screen and released holds exactly on a falling edge |
| Pointer.MovesToTheEdge | proj/src/cursor.c:20-40 | a packet moves the cursor right and up by its movements, as far as 0..788 and 0..580 allow |
| Pointer.MovesAddUp | proj/src/cursor.c:20-40 | over every packet sequence that stays on the screen the movements add up |
| EventBuffer.Buffer.Push | proj/src/event_queue.c:33-38 | the event joins unless the buffer is full |
| EventBuffer.Buffer.Pop | proj/src/event_queue.c:40-47 | the newest event |
| EventBuffer.HandleAll | proj/src/main.c:711-734 | every event is handled once, newest first |
| EventBuffer.Round | proj/src/main.c:652-734 | of the events of one message the key is handled first, then the mouse packet, then the tick; at most three are buffered, and the buffer is empty again at the head of the loop |

## Left out

- Handlers.Program.constructor: the board is created when the program starts; the
  source creates it on the first event of a game, before which no handler uses it.
- Boards.Board.constructor: the fields that the source leaves uninitialised (targets,
  change and pawn flags) start as 0 and false.
- MouseDecoder.Decoder.Byte: requires an index within the three-byte buffer, which an
  errored byte can break; that is what MouseDecoder.ErrorJams states.
- Framebuffer.DrawHline: requires a row of the screen; below it the source would write
  past the buffer. Its one caller stops at the last row.
- RingBuffer.Exercise: capacities above 255, where RingBuffer.Overfill shows that it fails.
- Theorems.ReplicasAgree: boards after a move that touches square (0, 0), where
  MoveRuns.DeliveredIffNoCorner and Games.CornerDivides show that it fails, and after
  crossed handshakes, where Witness.CrossedDivides shows it.
- Theorems.NoCrash: runs with a corner move, where Games.ReceiverDies shows that it fails
  and MoveRuns.DeliveredFate says when, and runs with crossed handshakes, where
  Witness.CrossedCrash shows it.
- Theorems.WinnerAgreement: runs with a corner move, where Games.TwoWinners shows that it
  fails.
- GameRecord.BoardsShowOneGame: runs with a corner move, where Games.CornerDivides shows
  that the boards are no longer of one game.
- Theorems.OnlyOpponentsTaken: runs with a corner move, where Games.OwnPieceTaken shows
  that it fails on the board of the receiver; Theorems.PiecesConserved says what holds there.
- PawnFlags.FlagMeansMoved: runs with a corner move or in which a frame with animation off
  finds an own pawn sent off with its flag down; PawnFlags.SnapLasts and Games.StepsTwice
  show that such a frame breaks it.
- The screen geometry is fixed (tiles of 59, left edge 65, top edge 64); the source
  gets the left edge from a float margin, with the same result in mode 0x115.
- Castling, en passant, promotion, check and mate are not in the program.
- UART registers, interrupt subscription, bit rate, word length and the FIFO resets
  (proj/src/serialPort.c:95-107): the wire is a lossless first-in first-out line, and
  readiness is a parameter.
- sp_emptyTransmitQueue, whose loop condition is inverted (proj/src/serialPort.c:192);
  the loop that really drains the queue is SerialPort.Port.Drain.
- VBE mode setting, mapping of video memory, XPM loading, backgrounds, letters, the
  drawing of pieces and of the cursor, and copying buffers to the screen.
- Heap allocation and freeing, printf (one call at proj/src/main.c:309 reads the board
  buffer before the bounds test), delays and MINIX message passing.
- The keyboard driver, its two-byte scan codes, and the mouse controller commands.
- The name itself; only its length decides what a key does.
- The lab directories.
