# crossfi word-search contest, modelled in Dafny

crossfi is a browser word-search contest. Two people play over a peer-to-peer
link, or one person plays the computer. Each match runs as follows:

- A 10×10 puzzle is generated from themed words.
- Players take turns dragging straight lines over the grid to find words.
- The first to reach the target wins.

Around the match sit several small tables and rule sets:

- a room table and a user/statistics table, both kept in browser storage
- a typed event emitter in front of the peer link
- the coordination rules of the application shell: match start, rematch requests and theme voting, the coin flip, first-mover alternation, and the recording of statistics
- the permission predicates and derived views of the match screen: whose turn it is, who may drag, spend bonus time or chat, the score, the bonus tokens, and the room list order

This project models all of that in Dafny and proves what each part promises.

Where the source changes things step by step, the model does so too:

- The generator writes words into an `array2<Cell>`.
- The room table, user table, event emitter, peer link, coin-flip screen, voting screen, selection state and application shell are classes.
- Their methods are proved to compute exactly what a pure specification function says.
- The properties are then proved about those functions.

Pure code (predicates, comparators, derived views) is modelled as functions and lemmas.

Some things are parameters rather than computed:

- Random choices: the generator's direction and start draws, the filler letters, the theme shuffle, the AI's vote, the tie-break and the coin toss.
- Clock readings and fresh ids.
- The outcome of the asynchronous puzzle generation.

Modules, one per source file:

| module | source |
|---|---|
| `Wrappers` | Option / Result |
| `Types` | `types.ts`, `constants.ts` |
| `JsText` | the JavaScript string operations the source relies on: `split('_')[1]`, `parseInt(…, 10)`, `toLowerCase`, number printing |
| `GameService` | `services/gameService.ts` |
| `WordGrid` | `components/common/WordGrid.tsx` |
| `RoomService` | `services/roomService.ts` |
| `GameRooms` | `components/GameRoomsScreen.tsx` |
| `AuthService` | `services/authService.ts` |
| `P2PService` | `services/p2pService.ts` |
| `ThemeVoting` | `components/ThemeVotingScreen.tsx` |
| `CoinFlip` | `components/CoinFlipScreen.tsx` |
| `GameBoard` | `components/GameBoardScreen.tsx` |
| `PlayerInfo` | `components/common/PlayerInfo.tsx` |
| `App` | `App.tsx` |

JavaScript semantics that matter are written out:

- The empty string is falsy. This covers `partOfWord`, a stored vote and an empty user id.
- The enum value `GameMode.PlayerVsPlayer` is `0`, so it is falsy.
- `%` truncates.
- `parseInt` reads a leading run of digits and gives `NaN` (here `None`) when there is none.
- A comparator result of `NaN` orders like `0`.
- A read of a grid cell outside the grid throws a `TypeError`. That is modelled as an error outcome.

## Model

| member | source | states |
|---|---|---|
| Types.AiOpponent | constants.ts:16-44 | each difficulty's opponent is flagged as the computer and has no games recorded |
| Types.WordCells | components/common/WordGrid.tsx:136-142 | a word's cell i is (r, c+i), (r+i, c) or (r+i, c+i) by direction, one cell per letter |
| GameService.EmptyGrid | services/gameService.ts:112-114 | the starting grid is GRID_SIZE × GRID_SIZE |
| GameService.CheckFitsIff | services/gameService.ts:97-109 | canPlace succeeds iff every cell on the path is unowned or already holds the word's letter at that index |
| GameService.CheckFromStaysOnGrid | services/gameService.ts:97-109 | a path inside the grid never makes canPlace read outside it |
| GameService.DrawnPathStaysOnGrid | services/gameService.ts:57-63 | for a word no longer than GRID_SIZE, every start the draws can produce keeps the whole path on the grid, in all three directions |
| GameService.PathIndex | services/gameService.ts:98-102 | finds the letter index whose path cell is a given cell, or proves there is none |
| GameService.PathIndexOfPathCell | services/gameService.ts:98-102 | a word's path visits a cell at most once, so the index found for cell i is i |
| GameService.WriteKeepsWords | services/gameService.ts:64-68 | writing a word that fits makes it read correctly at its location, and every word that read correctly before still does |
| GameService.TryFromMeaning | services/gameService.ts:54-95 | placeWord places at the first of its 100 draws that fits, after only clashes; it gives up iff all 100 clash; it fails only if some draw left the grid |
| GameService.TryFromNoCrash | services/gameService.ts:54-95 | with a word no longer than GRID_SIZE, placeWord never reads outside the grid |
| GameService.PlaceKeepsWords | services/gameService.ts:54-95 | a placement keeps every previously readable word readable, and the placed word reads correctly |
| GameService.StepKeepsWords | services/gameService.ts:118-125 | one iteration of createGrid's loop keeps every placed word readable, unfound and unclaimed |
| GameService.StepTexts | services/gameService.ts:118-125 | one iteration appends the current word to the placed texts exactly when placeWord returned a location for it, and otherwise leaves them alone |
| GameService.StepLetters | services/gameService.ts:64-67 | writing an upper-case word keeps every non-empty cell a single letter of the alphabet |
| GameService.WriteLetters | services/gameService.ts:64-67 | writing an upper-case word keeps every non-empty cell a single letter of the alphabet |
| GameService.SubsequenceExtend | services/gameService.ts:116-125 | appending the same word to both lists keeps the in-order subsequence relation |
| GameService.PlaceFromInvariant | services/gameService.ts:116-125 | over the whole loop, placed words read correctly and are unfound, and their texts are an in-order subsequence of the input |
| GameService.Kept | services/gameService.ts:118-125 | one flag per word until a word throws: whether placeWord returned a location for it on the grid the earlier iterations left |
| GameService.Select | services/gameService.ts:120-124 | the words whose flag is set, in order, never more than the words |
| GameService.PlaceFromKept | services/gameService.ts:116-125 | when the loop completes, every word got its turn and the placed texts are exactly the words kept by their own step, in input order |
| GameService.ShortWordsNeverThrow | services/gameService.ts:116-125 | when every word fits in a row, the placement loop never fails |
| GameService.FillMeaning | services/gameService.ts:128-135 | after filling, no cell is empty; only empty cells change and ownership is untouched; placed words still read correctly |
| GameService.GeneratedPuzzle | services/gameService.ts:111-138 | createGrid of words no longer than GRID_SIZE succeeds; its words read correctly, unfound; no cell is empty; the placed texts are exactly the input words whose placeWord call returned a location (Kept), in input order; and for upper-case words every cell is one letter of the alphabet |
| GameService.CrossingLettersAgree | services/gameService.ts:104 | two placed words that share a cell have the same letter there |
| GameService.Rows | services/gameService.ts:112-114 | a definition: the value of an array grid, cell by cell; CanPlace, WriteWord and FillEmptyCells are stated through it |
| GameService.CanPlace | services/gameService.ts:97-109 | the in-place loop computes exactly the specification Check on the current grid |
| GameService.PartlyWrittenStep | services/gameService.ts:65-67 | one more letter written changes exactly that path cell |
| GameService.WriteWord | services/gameService.ts:65-67 | the write loop leaves the grid equal to Write of the old grid |
| GameService.PlaceWord | services/gameService.ts:54-95 | the retry loop returns TryFrom's outcome and changes the grid exactly as that outcome says; a word that fits nowhere leaves it unchanged |
| GameService.FillEmptyCells | services/gameService.ts:128-135 | the nested fill loops compute exactly Fill of the old grid |
| GameService.NewEmptyGrid | services/gameService.ts:112-114 | a fresh GRID_SIZE × GRID_SIZE array of empty, unowned cells |
| GameService.PlaceAll | services/gameService.ts:116-125 | the loop over the words computes exactly the specification PlaceFrom |
| GameService.CreateGrid | services/gameService.ts:111-138 | createGrid computes exactly CreateGridSpec |
| GameService.GenerateWordsAndGrid | services/gameService.ts:140-146 | fewer words than requested is a Shortfall error; otherwise createGrid's result |
| GameService.Texts | services/gameService.ts:116-125 | a definition: the texts of the placed words, in order; StepTexts and PlaceFromKept state what they are |
| GameService.CheckFrom | services/gameService.ts:98-108 | canPlace's loop from a letter on: Fits means every remaining path cell is on the grid and compatible (CheckFromFits gives the converse) |
| GameService.Check | services/gameService.ts:97-109 | canPlace: Fits means every path cell is on the grid and unowned or already holding that letter |
| GameService.Write | services/gameService.ts:64-68 | every path cell on the grid then holds its letter and is owned by the word; every cell off the path is unchanged |
| GameService.TryFrom | services/gameService.ts:56-93 | a placed word keeps its text, is unfound and unclaimed, and sits where canPlace accepted it |
| GameService.Step | services/gameService.ts:119-124 | one iteration fails iff placeWord threw, with that word; otherwise the placed list grows by at most one at its end |
| GameService.PlaceFrom | services/gameService.ts:118-125 | the loop only appends, at most one location per word; a failure names a word of the list that threw |
| GameService.Fill | services/gameService.ts:128-135 | afterwards no cell is empty and every non-empty cell is unchanged |
| GameService.CreateGridSpec | services/gameService.ts:111-138 | a result holds a GRID_SIZE grid and at most one location per word; the only failure is a listed word reading off the grid |
| GameService.GenerateSpec | services/gameService.ts:140-146 | a Shortfall error iff fewer words than requested arrived; a result has at least the requested words behind it |
| WordGrid.Line | components/common/WordGrid.tsx:19-54 | for a horizontal, vertical or diagonal drag: max(\|Δrow\|,\|Δcol\|)+1 cells from start to end, each step (sign Δrow, sign Δcol); otherwise exactly [start] |
| WordGrid.GetLineCoords | components/common/WordGrid.tsx:19-54 | the push loops build exactly Line(start, end) |
| WordGrid.Straight | components/common/WordGrid.tsx:31-45 | a drag counts as a line iff it moves and stays on one row, one column or one of the two diagonals |
| WordGrid.Compare | components/common/WordGrid.tsx:130 | negative iff a comes first in row-then-column order; zero iff the cells are equal |
| WordGrid.Insert | components/common/WordGrid.tsx:130 | one more element; InsertSameCells and InsertSorted say which and where |
| WordGrid.InsertSameCells | components/common/WordGrid.tsx:130 | inserting adds exactly the one cell |
| WordGrid.Sort | components/common/WordGrid.tsx:130 | the same cells, as many as before; SortIsSortedPermutation adds that they are in order |
| WordGrid.MatchesSameCells | components/common/WordGrid.tsx:134-146 | a word matches iff it is unfound, as long as the selection, and on exactly the selected cells in some order |
| WordGrid.CompareIsTotalOrder | components/common/WordGrid.tsx:130 | the row-then-column comparator is a total order and is zero only on equal cells |
| WordGrid.SortIsSortedPermutation | components/common/WordGrid.tsx:130 | sorting gives a sorted permutation of the cells |
| WordGrid.InsertSorted | components/common/WordGrid.tsx:130 | inserting into a sorted list keeps it sorted and adds exactly that cell |
| WordGrid.SortedIsUnique | components/common/WordGrid.tsx:130 | two sorted lists with the same cells are equal, so any correct sort agrees with this one |
| WordGrid.SortDependsOnCellsOnly | components/common/WordGrid.tsx:130 | the sorted selection depends only on which cells are selected |
| WordGrid.FirstMatch | components/common/WordGrid.tsx:133-150 | the first word in list order that is unfound, as long as the selection, and whose sorted cells equal the sorted selection; none iff no word matches |
| WordGrid.FindMatch | components/common/WordGrid.tsx:132-151 | the matching loop with its break reports exactly the text of FirstMatch's word, and nothing iff there is no match |
| WordGrid.Reverse | components/common/WordGrid.tsx:117 | a drag from the other end yields the same cells in reverse order |
| WordGrid.ReverseSameCells | components/common/WordGrid.tsx:130 | reversing keeps the same cells |
| WordGrid.SelectingAWordReportsIt | components/common/WordGrid.tsx:130-150 | selecting exactly the cells of an unfound word reports a word no later in the list, with the same cells |
| WordGrid.DragAlongWord | components/common/WordGrid.tsx:117 | dragging from a word's first to last letter selects exactly its cells; dragging backwards selects them reversed |
| WordGrid.EitherDirectionSameReport | components/common/WordGrid.tsx:130-150 | dragging a word in either direction reports the same word |
| WordGrid.SameMatchesSameFirst | components/common/WordGrid.tsx:133-150 | selections that match the same words report the same first match |
| WordGrid.WordCellSet | components/common/WordGrid.tsx:65-71 | the set of a word's path cells |
| WordGrid.CoveredCells | components/common/WordGrid.tsx:61-91 | foundCells / allWordCells: a cell is in the set iff it lies on a (found) word |
| WordGrid.AddWordCells | components/common/WordGrid.tsx:65-72 | the inner loop adds exactly the word's cells |
| WordGrid.CollectCells | components/common/WordGrid.tsx:61-91 | the forEach loop computes exactly CoveredCells |
| WordGrid.FoundCellsAreWordCells | components/common/WordGrid.tsx:61-91 | every found cell is a word cell |
| WordGrid.Selection.constructor | components/common/WordGrid.tsx:57-59 | nothing selected, nothing failed, not selecting |
| WordGrid.Selection.PointerDown | components/common/WordGrid.tsx:103-108 | ignored off-turn; otherwise starts a selection at the cell |
| WordGrid.Selection.PointerMove | components/common/WordGrid.tsx:110-119 | while selecting from a start cell, the selection becomes the line from that start to the pointer; otherwise nothing changes |
| WordGrid.Selection.PointerUp | components/common/WordGrid.tsx:121-158 | no-op when not selecting; fewer than 2 cells clears without a report; otherwise reports FirstMatch's word, or marks the selection failed and clears it |
| WordGrid.Selection.TurnResultChanged | components/common/WordGrid.tsx:93-101 | a null turn result clears the selection; 'success' and 'fail' keep it |
| JsText.IndexOf | services/roomService.ts:123 | the first position of a character, or none iff it does not occur |
| JsText.Split | services/roomService.ts:123 | `split`: at least one piece, none containing the separator |
| JsText.SecondPiece | services/roomService.ts:123 | `split(c)[1]` is undefined iff the separator does not occur |
| JsText.SecondPieceAfterPrefix | services/roomService.ts:47 | the piece after the first separator of prefix+c+rest is rest |
| JsText.IndexOfAfterPrefix | services/roomService.ts:47 | the first separator of prefix+c+rest is right after the prefix |
| JsText.DigitChar | services/roomService.ts:47 | a digit's character reads back as that digit |
| JsText.Decimal | services/roomService.ts:47 | `${n}`: a non-empty run of digits |
| JsText.DecimalValue | services/roomService.ts:47 | the digits of n denote n |
| JsText.DigitRun | services/roomService.ts:123 | parseInt's maximal leading run of digits |
| JsText.DigitRunOfDigits | services/roomService.ts:123 | a string of digits is read to its end |
| JsText.TrimStart | services/roomService.ts:123 | parseInt skips leading white space |
| JsText.ParseDigits | services/roomService.ts:123 | parseInt of a non-empty string of digits is its value |
| JsText.ParseDecimal | services/roomService.ts:123 | parseInt reads back the number printed into a room id |
| JsText.ToLower | services/authService.ts:61 | a definition of `toLowerCase` on ASCII: same length, capitals mapped to small letters, the rest kept; ToLowerIdempotent and RegisteredNameBlocksCaseVariants use it |
| JsText.ParseInt | services/roomService.ts:123 | `parseInt`: NaN when the text has no digit; a text starting with a digit reads as a non-negative number |
| JsText.ToLowerIdempotent | services/authService.ts:61 | lower-casing twice is lower-casing once |
| RoomService.RoomId | services/roomService.ts:47 | a room id is `room_` followed by the creation time |
| RoomService.RoomIdTimestamp | services/roomService.ts:123 | the cleanup's `parseInt(id.split('_')[1], 10)` reads back the creation time of an id made by createRoom |
| RoomService.Joinable | services/roomService.ts:69 | a joinable room is not full, its host is not the guest, and a well-formed one has no guest yet |
| RoomService.RoomTimestamp | services/roomService.ts:123 | an id without `_` has no timestamp (NaN) |
| RoomService.Stale | services/roomService.ts:124 | a stale room has a readable timestamp more than an hour before now; an id without `_` is never stale |
| RoomService.StaleAfterAnHour | services/roomService.ts:119-124 | a room made by createRoom is stale iff more than one hour has passed since it was made |
| RoomService.Survivors | services/roomService.ts:117-131 | the rooms kept are exactly those not stale, unchanged |
| RoomService.RoomTable.constructor | services/roomService.ts:6-41 | an empty, valid table |
| RoomService.RoomTable.CreateRoom | services/roomService.ts:44-55 | adds exactly one waiting room with no guest under its id and returns it; the full ⇔ guest invariant is kept |
| RoomService.RoomTable.GetRoom | services/roomService.ts:57-60 | the stored room, or none iff the id is absent |
| RoomService.RoomTable.GetAllRooms | services/roomService.ts:62-64 | one element per stored room, every stored room listed, nothing else |
| RoomService.RoomTable.JoinRoom | services/roomService.ts:66-77 | succeeds iff the room exists, is waiting and the guest is not the host; it then stores the guest and the full status; on failure it returns null and leaves the table unchanged; validity is kept |
| RoomService.RoomTable.LeaveRoom | services/roomService.ts:79-95 | the host leaving deletes the room; the guest leaving empties the guest slot and reopens it; anyone else, or a missing room, changes nothing; validity is kept |
| RoomService.RoomTable.DeleteRoom | services/roomService.ts:97-103 | removes only that id |
| RoomService.RoomTable.CleanupStale | services/roomService.ts:117-132 | the loop leaves exactly the rooms that are not more than an hour old; `changed` holds iff some room was stale |
| GameRooms.IdTime | components/GameRoomsScreen.tsx:24-25 | an id with no `_` counts as time 0 |
| GameRooms.CompareRooms | components/GameRoomsScreen.tsx:21-27 | -1 for a waiting room against a full one, 1 the other way round |
| GameRooms.WaitingRoomsFirst | components/GameRoomsScreen.tsx:22-23 | a waiting room sorts before a non-waiting one, in both argument orders |
| GameRooms.NewestFirst | components/GameRoomsScreen.tsx:24-26 | within a status, rooms sort by id time, newest first |
| GameRooms.MissingTimestampIsZero | components/GameRoomsScreen.tsx:24-26 | a room whose id has no time counts as time 0 |
| GameRooms.CompareAntisymmetric | components/GameRoomsScreen.tsx:21-27 | swapping the arguments negates the comparator's sign |
| GameRooms.CompareTransitive | components/GameRoomsScreen.tsx:21-27 | on ids with readable times the comparator is transitive, so the sort is well defined |
| GameRooms.CreatedRoomsNewestFirst | components/GameRoomsScreen.tsx:24-26 | of two rooms made by createRoom with the same status, the later-made sorts first |
| GameRooms.IdTimeOfRoomId | components/GameRoomsScreen.tsx:24 | the screen reads back the creation time of an id made by createRoom |
| GameRooms.OrderedListsWaitingFirst | components/GameRoomsScreen.tsx:21-27 | in a list sorted by the comparator, no waiting room follows a non-waiting one |
| GameRooms.CanJoin | components/GameRoomsScreen.tsx:50 | holds iff the room is waiting and its host is not the current user, which is the table's own join rule |
| AuthService.NameTaken | services/authService.ts:61 | a stored user with the very same name takes it; nothing is taken in an empty table |
| AuthService.NewUser | services/authService.ts:65-72 | the signup record: the given name and avatar, zero wins, losses and bonuses |
| AuthService.SignupKeepsNamesUnique | services/authService.ts:61-75 | storing a name nobody has keeps names unique up to case |
| AuthService.RegisteredNameBlocksCaseVariants | services/authService.ts:61-63 | after signup, every spelling of the name that differs only in case is taken |
| AuthService.Enrolled | services/authService.ts:100-105 | a player missing from storage is stored with their identity and zero stats |
| AuthService.EnsureStored | services/authService.ts:100-105 | adds the player's id if missing, changes no stored user |
| AuthService.StatsAfter | services/authService.ts:96-114 | the table after updateStats has both players' ids, and every other user unchanged |
| AuthService.CreditWin | services/authService.ts:107-108 | crediting a win keeps the stored ids |
| AuthService.CreditLoss | services/authService.ts:110-111 | crediting a loss keeps the stored ids |
| AuthService.StatsOfTwoPlayers | services/authService.ts:100-111 | the winner gains one win, the loser one loss, each adds their bonuses; new players start from zero |
| AuthService.StatsOfSelfMatch | services/authService.ts:100-111 | a player listed as both winner and loser gets one win, one loss and both bonus counts |
| AuthService.UserTable.constructor | services/authService.ts:15-43 | empty storage, nobody logged in |
| AuthService.UserTable.GetLoggedInUser | services/authService.ts:45-56 | no id or an empty id gives null; an id with no stored user gives null and clears the id; otherwise the stored user |
| AuthService.UserTable.Signup | services/authService.ts:58-78 | a name already taken up to case is refused with its message and nothing changes; otherwise the new user is stored under its id and returned; name uniqueness is kept |
| AuthService.UserTable.DeleteUser | services/authService.ts:80-90 | removes only that id and logs out iff that user was logged in |
| AuthService.UserTable.UpdateStats | services/authService.ts:96-114 | the table becomes StatsAfter of the old one; nobody is logged in or out |
| P2PService.Without | services/p2pService.ts:19 | the filter drops the listener and keeps only listeners that were there |
| P2PService.WithoutDistributes | services/p2pService.ts:19 | the filter works element by element, so the order of the rest is preserved |
| P2PService.WithoutKeepsOthers | services/p2pService.ts:19 | every other listener keeps all of its registrations |
| P2PService.WithoutAbsent | services/p2pService.ts:19 | removing an absent listener changes nothing |
| P2PService.OnThenOff | services/p2pService.ts:9-20 | registering and then unregistering a new listener restores the list |
| P2PService.EventEmitter.constructor | services/p2pService.ts:7 | no listeners |
| P2PService.EventEmitter.ListenersOf | services/p2pService.ts:10-23 | an event without a list has no listeners |
| P2PService.EventEmitter.On | services/p2pService.ts:9-15 | appends the listener to that event's list, leaves the other events alone, and returns the unsubscribe for that event and listener |
| P2PService.EventEmitter.Off | services/p2pService.ts:17-20 | removes every occurrence of the listener, keeping the others in order; a no-op on an event with no list |
| P2PService.EventEmitter.RunUnsubscribe | services/p2pService.ts:14 | the returned function does exactly `off(event, listener)` |
| P2PService.EventEmitter.Emit | services/p2pService.ts:22-25 | calls exactly that event's listeners, in registration order; none for an event with no list |
| P2PService.Link.constructor | services/p2pService.ts:58-62 | no peer, no connection, not host, no id, nothing sent |
| P2PService.Link.InitializeAsHost | services/p2pService.ts:64-66 | becomes host with a new peer |
| P2PService.Link.HostPeerOpened | services/p2pService.ts:68-71 | records the id and notifies the peer-id listeners |
| P2PService.Link.IncomingConnection | services/p2pService.ts:73-82 | accepted iff there is no connection; a rejection keeps the existing connection and notifies nobody |
| P2PService.Link.InitializeAsGuest | services/p2pService.ts:87-90 | becomes guest with a new peer and no id |
| P2PService.Link.GuestPeerOpened | services/p2pService.ts:92-96 | connects to the host only while a peer exists |
| P2PService.Link.ConnectionClosedByPeer | services/p2pService.ts:112-115 | drops the connection and notifies the close listeners |
| P2PService.Link.SendMessage | services/p2pService.ts:120-124 | delivers iff a connection exists and is open; otherwise nothing changes |
| P2PService.Link.Disconnect | services/p2pService.ts:126-132 | clears peer, connection and id; isHost is unchanged |
| ThemeVoting.ThemesDistinct | services/gameService.ts:7-13 | the 20 themes are pairwise distinct |
| ThemeVoting.OfferedThemes | components/ThemeVotingScreen.tsx:12-15 | the first 3 of a permutation of THEMES are 3 distinct themes |
| ThemeVoting.HasVoted | components/ThemeVotingScreen.tsx:29 | a recorded vote exists and is non-empty; a player with no entry has not voted |
| ThemeVoting.AiVoted | components/ThemeVotingScreen.tsx:34-42 | without a computer player nothing changes; standing votes are kept; the only entry added or changed is the computer's, for the picked theme |
| ThemeVoting.Vote | components/ThemeVotingScreen.tsx:28-31 | a vote touches only the voter's entry |
| ThemeVoting.FirstVoteStands | components/ThemeVotingScreen.tsx:28-31 | a second vote is ignored; the first stands |
| ThemeVoting.FirstAi | components/ThemeVotingScreen.tsx:26 | a computer player from the list with no computer player before it (`find`'s first match), or none iff there is none |
| ThemeVoting.AiVotesOnceForOfferedTheme | components/ThemeVotingScreen.tsx:34-42 | the computer votes once, and only for an offered theme |
| ThemeVoting.Resolve | components/ThemeVotingScreen.tsx:44-62 | a result exists iff exactly two votes are recorded |
| ThemeVoting.ResolveTwoVotes | components/ThemeVotingScreen.tsx:47-56 | with both players' votes: equal votes give that theme, different votes give one of the two, always an offered theme |
| ThemeVoting.VotingScreen.constructor | components/ThemeVotingScreen.tsx:22-23 | the offered themes come from the shuffle; no votes yet |
| ThemeVoting.VotingScreen.CastVote | components/ThemeVotingScreen.tsx:28-31 | votes become Vote of the old votes; votes stay among the offered themes |
| ThemeVoting.VotingScreen.AiVote | components/ThemeVotingScreen.tsx:34-42 | the computer's vote, once; votes stay among the offered themes |
| ThemeVoting.VotingScreen.Outcome | components/ThemeVotingScreen.tsx:44-62 | Resolve of the recorded votes for the first two players |
| CoinFlip.WinnerIndex | components/CoinFlipScreen.tsx:54-55 | 0 iff the call equals the toss, otherwise 1 |
| CoinFlip.FlipBroadcast | components/CoinFlipScreen.tsx:49-65 | nothing while flipping or on the guest's screen; otherwise a result carrying the toss, that winner index and the call unchanged |
| CoinFlip.Reveal | components/CoinFlipScreen.tsx:24-26 | a result shows the call and spins the coin, leaving the outcome fields; anything else changes nothing |
| CoinFlip.Settle | components/CoinFlipScreen.tsx:29-31 | a result shows its toss and winner index and stops the coin, leaving the call; anything else changes nothing |
| CoinFlip.Handle | components/CoinFlipScreen.tsx:23-42 | the first index proceeded with stands; a new one comes only on the host's screen, from a received result's winner index; an inbox without results changes nothing |
| CoinFlip.Proceeds | components/CoinFlipScreen.tsx:34-38 | only the host proceeds from a result, with the payload's winner index |
| CoinFlip.FlipNeverStartsGame | components/CoinFlipScreen.tsx:35-64 | as written, nobody starts the game after a flip |
| CoinFlip.FlipStartsGame | components/CoinFlipScreen.tsx:23-65 | corrected, the host starts the game with player 1 first iff the call matched, and both screens show the same result |
| CoinFlip.CoinFlipScreen.constructor | components/CoinFlipScreen.tsx:14-17 | not flipping, nothing shown |
| CoinFlip.CoinFlipScreen.HandleFlip | components/CoinFlipScreen.tsx:49-65 | a no-op while flipping or on the guest's screen; otherwise broadcasts FlipBroadcast and, corrected, starts showing it locally |
| CoinFlip.CoinFlipScreen.DataReceived | components/CoinFlipScreen.tsx:23-26 | a result shows the call and spins the coin; other messages are ignored |
| CoinFlip.CoinFlipScreen.AnimationDone | components/CoinFlipScreen.tsx:29-39 | stores the payload's result and winner index; the host proceeds with that index |
| GameBoard.CurrentPlayer | components/GameBoardScreen.tsx:38 | `players[currentPlayerIndex]`, undefined outside the list |
| GameBoard.IsMyTurn | components/GameBoardScreen.tsx:39 | holds iff the current player's id is the current user's |
| GameBoard.IsSpectatorOrAI | components/GameBoardScreen.tsx:40 | spectator view, or the current player is the computer |
| GameBoard.GridInteractive | components/GameBoardScreen.tsx:72 | the grid takes drags iff the current player is me, the turn is active and the spectator view is off |
| GameBoard.BonusVisible | components/GameBoardScreen.tsx:75 | the bonus button shows iff the current player is me, the turn is active and it is a normal turn |
| GameBoard.BonusDisabled | components/GameBoardScreen.tsx:76 | the button is disabled iff the player's panel shows no whole bonus token |
| GameBoard.ChatLocked | components/GameBoardScreen.tsx:87 | locked iff the turn is inactive, the spectator view is on, or the current player is the computer |
| GameBoard.ChatRules | components/GameBoardScreen.tsx:87 | the computer's turn locks the chat; a person's active turn without spectator view leaves it open |
| GameBoard.InteractiveMeansChatOpen | components/GameBoardScreen.tsx:72-87 | when the grid takes my drags, the chat is locked iff the current player is flagged as the computer |
| GameBoard.FirstOther | components/GameBoardScreen.tsx:44 | a listed player whose id differs with every earlier player sharing the id (`find`'s first match), or none iff all share the id |
| GameBoard.Forfeit | components/GameBoardScreen.tsx:42-47 | a confirmed forfeit reports a winner other than me and the players unchanged; it reports whenever such a player exists |
| GameBoard.ForfeitInTwoPlayerMatch | components/GameBoardScreen.tsx:42-47 | in a match of two, the opponent wins |
| PlayerInfo.FoundWords | components/common/PlayerInfo.tsx:62 | exactly the player's found words, in puzzle order |
| PlayerInfo.Score | components/common/PlayerInfo.tsx:16 | the score is the number of words found by the player, at most the word count |
| PlayerInfo.FoundWordsOfConcat | components/common/PlayerInfo.tsx:16 | the count adds up over any split of the word list |
| PlayerInfo.ScoreOfOneWord | components/common/PlayerInfo.tsx:16 | one word scores 1 for its finder and 0 for anyone else |
| PlayerInfo.ScoresShareTheWords | components/common/PlayerInfo.tsx:16 | two players' scores together never exceed the number of words |
| PlayerInfo.ScoreDots | components/common/PlayerInfo.tsx:17-19 | a definition: wordsToWin dots, dot i filled iff i < score; DotsFullAtTarget uses it |
| PlayerInfo.DotsFullAtTarget | components/common/PlayerInfo.tsx:17-19 | at the target every dot is filled |
| PlayerInfo.BonusTokens | components/common/PlayerInfo.tsx:49 | ⌊bonusTime / BONUS_TIME_AWARD⌋ |
| PlayerInfo.SpendingOneChunk | components/common/PlayerInfo.tsx:49 | spending one award of bonus time removes exactly one token |
| PlayerInfo.ShowBonusPanel | components/common/PlayerInfo.tsx:43 | a definition: shown iff this is the current player's panel and the player is not the computer |
| PlayerInfo.ShowNoWordsYet | components/common/PlayerInfo.tsx:67 | the empty-state line shows iff the found list is empty |
| App.ResetScores | App.tsx:84 | a definition: every player's score, bonus time and bonuses earned become 0, the rest kept; StartGameResets uses it |
| App.MatchStart | App.tsx:195-201 | a fresh match: in game with the given puzzle, no winner, no chat, no requests, every player's counters zeroed with identity kept; mode, user and error untouched |
| App.AddRequest | App.tsx:104-105 | the id is then present, added at most once at the end |
| App.AddRequestOnce | App.tsx:101-106 | adding keeps the requests free of duplicates, and adding twice is adding once |
| App.OpponentId | App.tsx:103 | with a user: the id of a listed player not the user with every earlier player being the user, and none iff every player is the user; with no user: the first player's id, and none iff the list is empty |
| App.StartBlockedAsWritten | App.tsx:182 | the guard as written blocks every mode except the computer one |
| App.StartBlocked | App.tsx:182 | the intended guard lets a game start iff it is against the computer or the host of a two-person match starts it |
| App.PvpHostNeverStarts | App.tsx:182 | the guard as written blocks the host of a match between two people |
| App.GuardsDisagreeOnlyForPvpHost | App.tsx:182 | the written and intended guards differ exactly for the host of a two-person match |
| App.LastError | App.tsx:213-215 | the last update of the error slot wins |
| App.FailureErrorAsWritten | App.tsx:213-215 | the error slot ends empty |
| App.FailureError | App.tsx:213-215 | the error slot ends holding the failure message |
| App.FailureMessageLost | App.tsx:213-215 | as written, the failure message is never shown |
| App.FailureMessageShown | App.tsx:213-215 | corrected, the failure message is shown |
| App.JsRemainder | App.tsx:276 | JavaScript `%` on non-negative operands |
| App.NextFirstPlayer | App.tsx:276 | player 0 against the computer; otherwise the next index mod 2 |
| App.FirstMoverAlternates | App.tsx:276 | between two people the first mover alternates, and returns after two rematches |
| App.StartGameResets | App.tsx:77-86 | START_GAME takes puzzle, first mover and target from the payload; it clears winner, chat and requests; it zeroes each player's score, bonus time and bonuses, keeping identity and stats |
| App.RematchRequestOnce | App.tsx:101-107 | REMATCH_REQUEST adds the opponent's id at most once |
| App.RequestRematchIdempotent | App.tsx:256-265 | handleRematchRequest is idempotent per id; the host sends iff the id is new |
| App.RematchEffectRule | App.tsx:267-271 | the screen turns to theme voting iff there are 2 requests and 2 players; otherwise nothing changes |
| App.BothRequestsStartVoting | App.tsx:256-271 | on a screen that records both players' ids, the first request leaves the screen alone and the second starts the vote; only the guest's screen gets there, since only the host sends REMATCH_REQUEST |
| App.ThemeSelectedRule | App.tsx:273-283 | against the computer player 0 moves first and a 10-word puzzle on the chosen theme is requested; a host uses `(first + 1) % 2`, sends START_GAME and requests a 4-word puzzle on the chosen theme; a guest only sends REMATCH_ACCEPTED and requests nothing |
| App.StartNewGameRule | App.tsx:181-219 | a no-op without a mode or for a guest; otherwise the target and the word count follow the mode, the given theme is passed to the generator, success starts the match, failure returns to the lobby with an error |
| App.StatsOnlyBetweenPeople | App.tsx:227-240 | statistics are recorded only when neither player is the computer, with the first other player as loser; only the host broadcasts GAME_OVER |
| App.ForfeitRecordsLoss | App.tsx:227-240 | a forfeit between two people records a win for the opponent and a loss for the forfeiter |
| App.ChatRule | App.tsx:285-291 | chat messages are appended at the end, whether typed here or received (the CHAT_MESSAGE case at App.tsx line 98); a local one is sent only between two people |
| App.StartNewGameStep | App.tsx:181-219 | never records statistics and keeps mode and user; asks for a puzzle iff the guard lets the game start, and then on the given theme (App.tsx:193); sends iff a host of a two-person match got a puzzle |
| App.ThemeSelectedStep | App.tsx:273-283 | keeps mode and user; asks for a puzzle iff against the computer or as host of a two-person match, and then on the selected theme (App.tsx:277) |
| App.FlipCompleteStep | App.tsx:221-225 | a guest does nothing; a host with a mode asks for a puzzle with no theme |
| App.ReceiveDataStep | App.tsx:75-112 | keeps mode and user and records no statistics; only REMATCH_ACCEPTED makes this screen send or ask for a puzzle, and a host with a mode then asks for one on the guest's theme (App.tsx:108-109) |
| App.RequestRematchStep | App.tsx:256-265 | changes only the requests, to AddRequest of them; only the host sends, and then exactly REMATCH_REQUEST |
| App.RematchEffect | App.tsx:267-271 | changes at most the screen and the error slot, and only with 2 requests and 2 players |
| App.GameOverStep | App.tsx:227-235 | shows the winner and final players, clears the error and changes nothing else; anything sent is exactly GAME_OVER with that payload |
| App.SendChatStep | App.tsx:285-291 | changes only the messages; anything sent is the new chat message |
| App.AppShell.constructor | App.tsx:24-39 | the initial state |
| App.AppShell.Send | services/p2pService.ts:120-124 | messages reach the link's log iff the connection is open |
| App.AppShell.BeginMatch | App.tsx:195-201 | the state becomes MatchStart of the old one |
| App.AppShell.StartNewGame | App.tsx:181-219 | the state, sent messages and puzzle request (word count and theme) are exactly StartNewGameStep's |
| App.AppShell.HandleThemeSelected | App.tsx:273-283 | exactly ThemeSelectedStep |
| App.AppShell.HandleFlipComplete | App.tsx:221-225 | exactly FlipCompleteStep |
| App.AppShell.HandleP2PData | App.tsx:75-112 | exactly ReceiveDataStep |
| App.AppShell.HandleRematchRequest | App.tsx:256-265 | exactly RequestRematchStep |
| App.AppShell.RematchRequestsChanged | App.tsx:267-271 | exactly RematchEffect |
| App.AppShell.HandleGameOver | App.tsx:227-240 | exactly GameOverStep, and the user table becomes StatsAfter when statistics are recorded |
| App.AppShell.HandleSendMessage | App.tsx:285-291 | exactly SendChatStep |

## Left out

- Word generation by the Gemini model (services/gameService.ts:15-52) and services/aiService.ts: foreign network calls. The words arrive as a parameter.
- PeerJS itself: peers, connections and their callbacks are reduced to the fields they set. The link records what it sends. The `error` callbacks only forward to the emitter.
- Browser storage, JSON encoding and the window events that announce room changes: the tables are in-memory maps.
- `Date.now` and the random parts of ids are parameters.
- RoomService.RoomTable.CleanupStale: takes one clock reading `now` for the whole loop, while roomService.ts:123 reads `Date.now()` again for each room, so a room that crosses the one-hour mark during the loop is not captured.
- Every `Math.random` is a parameter; no distribution is claimed. This covers the theme shuffle, which is not uniform anyway.
- The turn, steal, countdown and bonus-award engine: none of the modelled files implements it.
- Timers: `setTimeout` delays are collapsed into separate steps, for example `CoinFlip.CoinFlipScreen.AnimationDone`. The 500 ms clearing of the failed selection in WordGrid.tsx:155 is not modelled.
- `isLoading` and the other loading flags.
- The AI opponent's move logic (services/aiService.ts) is not part of this model.
- React's stale closures: `handleP2PData` reads `players` and `currentUser` from the render it was created in. The model reads the current state.
- Markup, styling and `getCellClasses`.
- `Array.prototype.sort` itself: only the comparators are modelled. For cells, any correct sort gives the same result (`WordGrid.SortedIsUnique`).
- JavaScript number precision and `NaN` arithmetic: integers are unbounded, and `parseInt` failures are `None`.
- `toLowerCase` and white space are modelled for ASCII only.
- Direction draws (`Math.floor(Math.random() * 3)`) are constrained to a direction. The value 3, which the source's `switch` would fall through, cannot occur because `Math.random() < 1`.
- RoomService.RoomTable.GetAllRooms: the order of `Object.values` is not stated, only that every stored room is listed once.
- AuthService.UserTable.UpdateStats: does not keep names unique. A newly enrolled player may share a name with a stored user up to case, as in the source, so `Valid()` is not promised there.
- AuthService.StatsAfter: the extra Player fields (score, bonusTime, bonusesEarned) that the source's spread copies into a newly enrolled user are dropped. The stored type is User.
- ThemeVoting.VotingScreen.constructor: requires at least two players. With fewer, the source renders nothing and keeps no state.
- GAME_STATE_UPDATE (services/p2pService.ts:28-35): the `wordToFind` field is dropped from the message, since App.tsx:87-92 never reads it. `turnType` is carried as the boolean `stealTurn`. Of the payload, the handler uses only the players and the grid.
- Login, logout, mode selection and lobby navigation (App.tsx:119-179, 293-300) are not part of this model beyond the state fields they set.

## Findings

| source | as written | input that shows it | evidently intended | confidence | as-written member | corrected member |
|---|---|---|---|---|---|---|
| App.tsx:182 | `!gameMode` is true for `GameMode.PlayerVsPlayer`, whose enum value is 0, so startNewGame returns at once in every match between two people | gameMode = PlayerVsPlayer, isHost = true | block only when no mode is chosen, or for a two-person guest (`gameMode === null`) | not executed | App.PvpHostNeverStarts | App.GuardsDisagreeOnlyForPvpHost |
| components/CoinFlipScreen.tsx:49-65 | the host only sends COIN_FLIP_RESULT; a connection delivers to the other end only, and only the host's handler calls onFlipComplete (lines 35-38), so no game starts | any call and toss | the host also handles its own result and then starts the game | not executed | CoinFlip.FlipNeverStartsGame | CoinFlip.FlipStartsGame |
| App.tsx:213-215 | `setError(message)` is followed by `handleNavigate(Lobby)`, which calls `setError(null)` (line 148), so the failure message is never shown | generation throws `Error("x")` | the lobby shows "Failed to start game: x" | not executed | App.FailureMessageLost | App.FailureMessageShown |

The model uses the corrected behaviour throughout:

- `App.StartNewGameStep` uses `App.StartBlocked`.
- Its failure branch uses `App.FailureError`.
- `CoinFlip.CoinFlipScreen.HandleFlip` hands its own broadcast to `DataReceived`.
