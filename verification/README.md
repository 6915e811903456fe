# Verified models of the parts that must not go wrong

The `erpc` command-line client signs operators in, talks to an assistant, buys credit and prepares
node configuration. This project models the parts of it where a mistake is silent and costly, and
proves what they promise. Each module says at its head which file it models.

**One session for many processes.** `RotationProtocol` is the refresh protocol as a state machine:
any number of processes that share a store, a lock and a parked file, and an issuer that ends a
token family when it sees a spent token (section 4.14.2 of RFC 9700). `RotationSafety` proves what
every run keeps. `RotationFaults` takes the assumptions away one by one: each `Fault` is a
departure from what the code relies on, for each there is a run that goes wrong, and so the main
safety theorem is an if-and-only-if. `Session` is the code itself, statement by statement, on the
shared state; every method extends the run of the protocol so far, so the theorems hold of it across
any number of calls, and its ghost `faults` are the departures that have happened. `InFlight` is the
record with which a process drains its rotations before it ends, and `Leaving` runs it beside the
protocol.

The environment that `faults == {}` stands for: one account and store per parked path; fresh
tokens; the issuer did not rotate when `refresh` fails; a process does not end between a refresh and
the parking of its answer, nor inside the drop of a rotation; `Leaving::park` reads the record and
writes the file in one step; a dead process's pending store write has landed or never will; the
blocking pool takes a save that a live task asks for; a parked file can be written and read back;
and a sign-out that has removed the parked file also removes the stored session. Several of these the
code does not ensure by itself, and the counterexamples show what then happens: `Leaving::park`
takes a snapshot and writes it afterwards; a dropped rotation is uncounted before it is parked; a
save that the pool refuses has its record dropped although it was neither saved nor parked; a park
that fails and a parked file that cannot be read are passed over; `sign_out` removes the parked file
before a delete that can fail (crates/erpc-auth/src/session.rs:679-680); and what leaves waits for
rotations but not for sign-outs (crates/erpc/src/interrupt.rs:222). The lock admits one holder, and
is held until a save ends. The fingerprint by which a parked file names the token it replaced is
modelled as the token itself.

**The conversation.** `Compact`, `Conversation` and `ChatSession` model the message history: turns,
tool rounds, aborts, failures, compaction, and cutting old tool results short. What the service,
the tools and the person do are arguments. The model API takes only histories in which user and
assistant alternate and every call is answered at once, exactly, by id and in order; that is the
invariant of every run. The size of a history is a parameter, and the sentences that the session
itself writes into it are abbreviated.

**Buying credit.** `TopUp` models the exchange from the submit on. The server is a machine that
only moves forward; the one submit may arrive at any time or never; the server's moves are
interleaved with every request. Replies are honest: a state that is named was true when the reply
was given, and a definite refusal of the submit comes from what received the signature and did not
take it.

**Codecs and streams.** `Cb58` and `Positional` are base conversion as the NodeID check does it.
`Bech32` and `BinaryDigits` are the checksum of an address by the Bech32 section of BIP 173: the
accumulator is a number, shifts and masks are division, multiplication and remainder, and it is
related to its thirty binary digits. `Bech32Field` reads the same checksum over the field of 32
elements, and from that `Bech32Bursts` and `Bech32Triples` show which changes are always seen.
`EventStream`, `Answer` and `Chat` read a streamed answer (with `Json` for the values), `Printer`
shows commands so that they can be read back, and `Redaction` takes keys out of a text.

**Two small machines with exact bounds.** `Polling` is the device login's polling loop (section 3.5
of RFC 8628), and `AccessList` brings address rules into one form.

Run `dafny verify dfyconfig.toml` in this directory.

## Model

| member | source | states |
|---|---|---|
| RotationSafety.StepKeepsInvariant | crates/erpc-auth/src/session.rs:537-612 | Every step of every operation -- lock, recovery, read, refresh, record, save, park, sign-in, sign-out, leaving, a process ending -- keeps the invariant: the store is current, or the parked file holds its family's current token and names exactly what the store holds |
| RotationSafety.RunKeepsInvariant | crates/erpc-auth/src/session.rs:212-255 | The invariant holds in every state of every run, with any number of processes, whatever the store and the issuer do that is no fault |
| RotationSafety.NoReuseWithoutFaults | crates/erpc-auth/src/session.rs:537-612 | In no interleaving is a spent refresh token of a live family presented, whatever saves are refused or land while reporting failure |
| RotationSafety.RotatedSessionIsSomewhere | crates/erpc-auth/src/session.rs:302-320 | From the issuer's answer until the rotation returns, the new session is in the process that got it, in the unsaved record, in the store or in the parked file |
| RotationSafety.LiveTokenIsHeld | crates/erpc-auth/src/lock.rs:113-127 | Whenever the lock is free, the current token of the stored family is in the store, or in a parked file that names exactly what the store holds |
| RotationSafety.StepKeepsSession | crates/erpc-auth/src/session.rs:566-581 | Every step leaves the store with the same session or a rotation of it, but for a sign-in or sign-out that writes the store in that very step |
| RotationSafety.SignInStands | crates/erpc-auth/src/session.rs:737-798 | A sign-in is never undone: after its save, whatever removals of the parked file fail, the store holds that session or a rotation of it, until a later sign-in or sign-out really writes the store |
| RotationFaults.NoReuseExactlyWithoutFaults | crates/erpc-auth/src/session.rs:537-612 | Over every set of departures from the environment the code relies on: no run reuses a spent token if and only if the set is empty |
| RotationFaults.LostAnswerBreaks | crates/erpc-auth/src/session.rs:289-300 | If a refresh can report failure although the issuer rotated, the spent token is presented again |
| RotationFaults.CutOffBreaks | crates/erpc-auth/src/session.rs:302-320 | If a process can end between the refresh and the parking of its answer, the spent token is presented again |
| RotationFaults.SplitDropBreaks | crates/erpc-auth/src/session.rs:406-422 | A process that ends between uncounting a dropped rotation and parking it loses the session: `drop` is two steps in the code |
| RotationFaults.SplitParkBreaks | crates/erpc-auth/src/session.rs:472-485 | A copy of the record, written after the save landed and another process parked, destroys the newer session: `park` is a snapshot and then a write in the code |
| RotationFaults.LateWriteBreaks | crates/erpc-auth/src/session.rs:472-485 | A store write of a dead process that lands after a later rotation brings the spent token back |
| RotationFaults.PoolRefusedBreaks | crates/erpc-auth/src/session.rs:513-532 | A save that the blocking pool refuses leaves the session neither stored nor parked, since the record is dropped all the same |
| RotationFaults.ParkRefusedBreaks | crates/erpc-auth/src/session.rs:591-612 | If the store refuses the save and the park fails too, the session is lost |
| RotationFaults.ParkUnreadableBreaks | crates/erpc-auth/src/session.rs:566-567 | If the parked file cannot be read, recovery is skipped and the spent token is presented |
| RotationFaults.HalfSignOutBreaks | crates/erpc-auth/src/session.rs:635-701 | A sign-out that removes the parked file and not the stored session leaves the store with a spent token |
| RotationFaults.SharedPathBreaks | crates/erpc-auth/src/session.rs:159-172 | With two accounts on one parked path, a park for the second destroys the first one's only copy |
| Session.Machine.ReadLocked | crates/erpc-auth/src/session.rs:537-587 | Exactly when reading succeeds, what it gives, and what is in the store and in the parked file afterwards, also when the parked file is passed over; on success the lock is held, and without faults what was read may be presented and is the newest there is |
| Session.Machine.FileRotation | crates/erpc-auth/src/session.rs:591-612 | The rotated session is saved, or parked with the token it replaces, or the park fails, and the caller is told which; a failed park is the fault of `ParkRefusedBreaks` |
| Session.Machine.Refresh | crates/erpc-auth/src/session.rs:276-321 | Without faults the token presented is never a spent one of a live family; the issuer ends, rotates or leaves the family as it must; a rotation is recorded before it is filed |
| Session.Machine.CurrentSession | crates/erpc-auth/src/session.rs:212-255 | For everything the environment can do: exactly what the caller is given, where the session is afterwards and which fault has happened, if one has. What is given is what the store holds and, without faults, may be presented; a token that the issuer refuses is told from any other failure; after "saved to the fallback" the parked file holds the new session and the store holds it too or the token it replaced |
| Session.Machine.SignOut | crates/erpc-auth/src/session.rs:635-701 | It succeeds exactly when the lock is taken, the store can be read and both removals work; "confirmed" means exactly that something was there, was readable, and the issuer ended all of it, and "nothing to revoke" exactly that nothing was; a removal that works takes effect whatever the other one does |
| Session.Machine.StoreNewSession | crates/erpc-auth/src/session.rs:737-798 | It succeeds exactly when the lock is taken, the store can be read and the save lands; then the store holds the sign-in, no parked file supersedes it, the previous session is ended if the issuer agreed, and the report says what became of a parked session and whether the previous one was unreadable |
| Session.Machine.ClearParked | crates/erpc-auth/src/lock.rs:251-257 | A removal that fails leaves the file; one that works leaves none; reading goes on with the newest session in the store |
| Session.Machine.ParkRotated | crates/erpc-auth/src/lock.rs:159-196 | A park that works leaves the file with the new session, naming the token it replaced; one that fails leaves the file as it was |
| Session.Machine.RevokeParkedSession | crates/erpc-auth/src/session.rs:655-672 | The parked family is ended exactly when the file can be read and the issuer agrees |
| Session.SessionStandsBetween | crates/erpc-auth/src/session.rs:537-612 | Between any two moments with no sign-in or sign-out that writes the store in between, the store keeps its session or a rotation of it |
| Session.SignInAndUse | crates/erpc-auth/src/session.rs:212-255 | A client that signs in and then lets any processes use the session any number of times, whatever stores, files and issuer do: without faults the store holds that session or a rotation of it |
| Session.Machine.Take | crates/erpc-auth/src/session.rs:537-612 | What a method does to the shared state is one step of the protocol, after the run so far |
| Session.Machine.Rotate | crates/erpc-auth/src/session.rs:276-321 | Exactly what a refresh and the filing of its answer come to, in the issuer, the store, the parked file and the result |
| Session.Machine.UseHeld | crates/erpc-auth/src/session.rs:212-255 | Exactly what is done with the session that was read: nothing there, still good, leaving, or rotated |
| Session.Machine.DropRotation | crates/erpc-auth/src/session.rs:406-422 | A rotation that is dropped before it is filed leaves its session in the parked file |
| Session.Machine.EndProcess | crates/erpc/src/interrupt.rs:219-261 | A process that may end does, and the store write it had begun lands or not |
| Session.Machine.LeaveUnfiled | crates/erpc/src/interrupt.rs:219-261 | Leaving with a rotated session that is not filed, in a run without new faults: it is in the parked file, which names what the store holds, or the store holds it |
| Session.LeaveAndRead | crates/erpc/src/interrupt.rs:219-261 | The next process that reads gets that session, whatever became of the save |
| Leaving.MoveKeepsKnows | crates/erpc-auth/src/session.rs:326-336 | Whatever any process does, the record of a process knows of the rotation it runs, as far as that has come |
| Leaving.ParkedMayEnd | crates/erpc/src/interrupt.rs:219-249 | A process that is leaving, has waited until the counts met, and has parked what it keeps may end without a fault, if and only if it is not in a sign-out that has removed the parked file |
| Leaving.SettledMayEnd | crates/erpc/src/interrupt.rs:219-249 | So may one that waited until nothing is counted |
| Leaving.SharesAreARun | crates/erpc/src/interrupt.rs:219-249 | What the processes share while one leaves is a run of the protocol without faults |
| InFlight.ApplyKeepsValid | crates/erpc-auth/src/session.rs:326-336 | The counter equals the number of rotations alive, and the unsaved records are some of them, after every event |
| InFlight.AllRecordedWhenCountsMeet | crates/erpc-auth/src/session.rs:457-461 | When as many sessions are unsaved as rotations are counted, every rotation has a record |
| InFlight.LeavingDrains | crates/erpc-auth/src/session.rs:358-373 | While a process is leaving no rotation begins, and the count only falls |
| InFlight.ParkCoversEverything | crates/erpc-auth/src/session.rs:472-485 | From the moment the counts met while leaving, every rotation that is not filed has a record, unchanged, so parking the records covers every session the store lacks |
| InFlight.Record.Begin | crates/erpc-auth/src/session.rs:360-373 | A rotation is counted and named exactly when the process is not leaving |
| InFlight.Record.Answered | crates/erpc-auth/src/session.rs:378-394 | The new session is recorded under its rotation, and nothing else changes |
| InFlight.Record.Filed | crates/erpc-auth/src/session.rs:398-403 | The record goes, the count stays |
| InFlight.Record.Drop | crates/erpc-auth/src/session.rs:406-422 | The rotation is uncounted, and what was recorded and not filed is handed out to be parked |
| InFlight.Record.StartLeaving | crates/erpc-auth/src/session.rs:441-444 | No rotation begins from here on |
| InFlight.Record.DropLeaving | crates/erpc-auth/src/session.rs:488-492 | One fewer is leaving |
| InFlight.Record.ToPark | crates/erpc-auth/src/session.rs:472-485 | Exactly the recorded sessions are parked |
| InFlight.Record.AllAnswered | crates/erpc-auth/src/session.rs:457-461 | What is waited for means that every rotation alive is recorded |
| Compact.PairedSplit | crates/erpc-ai/src/compact.rs:103-115 | Cutting a history at any question separates no call from its results |
| Compact.CutKeepsTurnsWhole | crates/erpc-ai/src/compact.rs:103-115 | The cut is at the last question but one: both parts are whole and exactly one later question is kept |
| Compact.RebuiltIsPaired | crates/erpc-ai/src/compact.rs:171-178 | A history rebuilt from a summary is one the model API takes |
| Compact.ShrunkIsPaired | crates/erpc-ai/src/compact.rs:74-98 | Cutting results short keeps every call answered |
| Compact.ShrunkCutsAllButTheLast | crates/erpc-ai/src/compact.rs:74-98 | All results but the last four are cut short, in order, and nothing else of the history changes |
| Compact.ShrunkTwiceIsShrunk | crates/erpc-ai/src/compact.rs:74-98 | Cutting short a second time changes nothing |
| Conversation.ResultsAnswerCalls | crates/erpc-ai/src/session.rs:643-729 | However the tools end, or are stopped, each call gets exactly one result, with its id and in order |
| Conversation.OnlyCallingAnswersCall | crates/erpc-ai/src/session.rs:404-508 | Only an answer that stopped to call tools leaves calls in the history |
| Conversation.RoundsAreProper | crates/erpc-ai/src/session.rs:404-508 | Whatever a round meets, it adds an answer, or an answer with exactly its results |
| Conversation.TurnIsClosedExactly | crates/erpc-ai/src/session.rs:337-399 | An answered turn leaves its question, tool rounds and answer; an unanswered one leaves nothing if no round finished, and otherwise every finished round in order and one closing note; the history stays whole |
| ChatSession.CompactedIsNotDue | crates/erpc-ai/src/session.rs:515-531 | After a compaction none is due, and after a failed summary none until the history has grown by RETRY_AFTER |
| ChatSession.SummarisedConserves | crates/erpc-ai/src/session.rs:535-589 | A summary loses nothing: what was said is archived and kept, in order |
| ChatSession.CompactedConserves | crates/erpc-ai/src/session.rs:515-589 | Compaction conserves the conversation: exactly, whenever no result is cut, and but for the cut results otherwise |
| ChatSession.EveryRunIsPaired | crates/erpc-ai/src/session.rs:282-399 | Over any run of messages answered, aborted or failed, compactions, resets and restores, the history alternates and answers every call exactly |
| ChatSession.EveryRunIsPairedExactly | crates/erpc-ai/src/session.rs:282-399 | That holds after every operation of a run if and only if every history that its restores take answers its calls |
| ChatSession.RestoreKeepsExactly | crates/erpc-ai/src/session.rs:282-299 | `restore` leaves a history that the model API takes if and only if what it accepts is one |
| ChatSession.RestoreTakesAnOpenCall | crates/erpc-ai/src/session.rs:282-299 | `restore` accepts a history that ends with a call that nothing answers |
| ChatSession.EveryRunConserves | crates/erpc-ai/src/session.rs:515-589 | Over any number of messages and compactions, the archive and the history without summaries are what the turns kept: exactly, when no compaction cuts a result short, and but for the cut results otherwise |
| ChatSession.EveryRunHasNoStrayResults | crates/erpc-ai/src/session.rs:643-729 | After every operation of a run, results stand nowhere but in the messages that answer calls, if and only if no reply that stays brings one in and no history that a restore takes holds one elsewhere |
| ChatSession.TurnedIsCleanExactly | crates/erpc-ai/src/session.rs:337-399 | A turn leaves a stray result if and only if an answer that stays holds one |
| ChatSession.AnswerHoldsResultsExactly | crates/erpc-ai/src/session.rs:404-508 | An answer holds a result if and only if its reply sends one among blocks that go into the history: the session filters none out |
| ChatSession.ServiceCanSendResults | crates/erpc-ai/src/session.rs:404-508 | A reply that leaves a stray result in the history |
| ChatSession.PairedIsRestorable | crates/erpc-ai/src/session.rs:271-299 | `restore` accepts every snapshot taken between turns |
| ChatSession.Session.Reset | crates/erpc-ai/src/session.rs:248-254 | Nothing is left |
| ChatSession.Session.SetArchived | crates/erpc-ai/src/session.rs:263-265 | The archive is replaced and the history is not |
| ChatSession.Session.Restore | crates/erpc-ai/src/session.rs:282-299 | Refuses exactly what is not turns of user then assistant, and takes anything else as it is |
| ChatSession.Session.Run | crates/erpc-ai/src/session.rs:404-508 | The loop of rounds leaves the history that the rounds call for, and fails after the last round |
| ChatSession.Session.CloseUnanswered | crates/erpc-ai/src/session.rs:375-399 | The history is cut back to the last results handed over, with a note, or to before the question |
| ChatSession.Session.CallTools | crates/erpc-ai/src/session.rs:643-729 | One result per call in order; after a stop the rest are marked as not run |
| ChatSession.Session.Shrink | crates/erpc-ai/src/compact.rs:74-98 | The in-place loops cut what the function says, and report whether anything changed |
| ChatSession.Session.ShrinkOne | crates/erpc-ai/src/compact.rs:79-97 | Within one message the first results are cut, and the rest of the number is carried on |
| ChatSession.Session.Summarise | crates/erpc-ai/src/session.rs:535-589 | The history is cut, archived and rebuilt only for a usable summary; an abort changes nothing |
| ChatSession.Session.CompactNow | crates/erpc-ai/src/session.rs:515-531 | An abort changes nothing; otherwise none is due afterwards |
| ChatSession.Session.Send | crates/erpc-ai/src/session.rs:337-370 | A message sent is a compaction when due, then the turn, and leaves the history whole |
| TopUp.NeverTakenExactly | crates/erpc-ai/src/actions.rs:712-734 | Once the submit is sent, the signature can never be taken if and only if the session has expired, is cancelled, or is ready with the submit gone |
| TopUp.SettledIsFinal | crates/erpc-ai/src/actions.rs:835-837 | A settled state never changes |
| TopUp.NeverTakenLater | crates/erpc-ai/src/actions.rs:746-757 | A refusal stays true |
| TopUp.Exchange.Follow | crates/erpc-ai/src/actions.rs:556-575 | Polls while the session is not settled, the last answer was a success and polls are left, and stops at the first status that does not come; what it returns is the last answer, which was true at some moment since the submit |
| TopUp.Exchange.TopUp | crates/erpc-ai/src/actions.rs:663-692 | With the submit lost, late or answered unclearly: it is sent exactly once; a report that nothing was paid means that the server never takes the signature, then or later; done means granted; a cancel is sent at most once, and only to a session last seen ready; and the report is the one that the submit's answer and the answers polled call for |
| TopUp.SettledIsReported | crates/erpc-ai/src/actions.rs:635-692 | A settled state that was the last answer the client got is what it reports, and it reports done exactly when that is granted |
| Cb58.DecodesInjective | crates/erpc-chain-avax/src/registration.rs:40-62 | No two texts stand for the same bytes |
| Cb58.DecodesFunctional | crates/erpc-chain-avax/src/registration.rs:40-62 | No text stands for two strings of bytes |
| Cb58.EncodeDecodes | crates/erpc-chain-avax/src/registration.rs:40-62 | Every nonempty string of bytes has a text, which stands for it |
| Cb58.EncodeUndoesDecode | crates/erpc-chain-avax/src/registration.rs:40-62 | Encoding what a text stands for gives the text |
| Cb58.Multiply | crates/erpc-chain-avax/src/registration.rs:46-52 | Multiplies by 58 and adds a digit; the carry never exceeds 57 |
| Cb58.MultiplyAdd | crates/erpc-chain-avax/src/registration.rs:42-59 | The bytes stay the shortest base-256 form, and at most one byte is put in front |
| Cb58.ReadNumber | crates/erpc-chain-avax/src/registration.rs:40-59 | The bytes are the shortest base-256 form of the base-58 number; fails exactly on a character outside the alphabet |
| Cb58.Decode | crates/erpc-chain-avax/src/registration.rs:40-62 | Each leading 1 becomes a zero byte |
| Cb58.NodeIdValid | crates/erpc-chain-avax/src/registration.rs:33-64 | Accepts exactly the prefix and at most 40 characters that stand for 20 bytes and their checksum |
| Cb58.NodeIdUnique | crates/erpc-chain-avax/src/registration.rs:33-64 | An accepted NodeID is the only one for its 20 bytes |
| BinaryDigits.XorOfNumbers | crates/erpc-chain-avax/src/registration.rs:97-97 | Exclusive or of numbers is digit by digit |
| Bech32.Take | crates/erpc-chain-avax/src/registration.rs:95-113 | One turn of the loop on the 32-bit number is one step of the checksum, and the number stays below 2^30 |
| Bech32.AddGenerators | crates/erpc-chain-avax/src/registration.rs:98-112 | The bits that fall out choose the generators that are added |
| Bech32.StepLinear | crates/erpc-chain-avax/src/registration.rs:95-113 | A step is linear over exclusive or |
| Bech32Field.StepInjective | crates/erpc-chain-avax/src/registration.rs:95-113 | A step loses nothing |
| Bech32Field.FeedbackKernel | crates/erpc-chain-avax/src/registration.rs:98-112 | What falls out of a step is zero if the lowest symbol fed back is |
| Bech32.ChecksumLinear | crates/erpc-chain-avax/src/registration.rs:94-114 | The whole checksum is linear |
| Bech32Bursts.BurstChangesChecksum | crates/erpc-chain-avax/src/registration.rs:94-114 | Strings that differ only within six places in a row have different checksums |
| Bech32.Polymod | crates/erpc-chain-avax/src/registration.rs:94-114 | The loop computes the checksum of the values |
| Bech32.ReadValues | crates/erpc-chain-avax/src/registration.rs:81-88 | Each character becomes its place in the alphabet; fails exactly on a character outside it |
| Bech32.SplitAtLast | crates/erpc-chain-avax/src/registration.rs:69-71 | Splits at the last separator |
| Bech32.AddressValid | crates/erpc-chain-avax/src/registration.rs:65-115 | Accepts exactly the text of the right prefix, length, alphabet and checksum |
| Bech32Bursts.BurstIsRejected | crates/erpc-chain-avax/src/registration.rs:65-115 | Changing any characters of an accepted address within six places of its body in a row gives a rejected one |
| Bech32Field.NoZeroDivisors | crates/erpc-chain-avax/src/registration.rs:94-114 | The symbols are a field under doubling modulo x^5 + x^3 + 1: no product of two others is zero |
| Bech32Triples.ProductAssociates | crates/erpc-chain-avax/src/registration.rs:94-114 | Its product is associative |
| Bech32Triples.ProductCommutes | crates/erpc-chain-avax/src/registration.rs:94-114 | And commutative |
| Bech32Field.FeedbackIsFed | crates/erpc-chain-avax/src/registration.rs:98-112 | What falls out of a step is fed back as its field product with the six symbols of the first generator |
| Bech32Field.StepScaled | crates/erpc-chain-avax/src/registration.rs:95-113 | A step with symbol zero is linear over the field |
| Bech32Triples.MovedApart | crates/erpc-chain-avax/src/registration.rs:95-113 | Two symbols, moved on by different numbers of places from 1 to 37, come to the same five upper symbols only if both are zero |
| Bech32Triples.TripleChangesChecksum | crates/erpc-chain-avax/src/registration.rs:94-114 | Strings that differ, in at most three places, the first and the last of them up to 37 apart, have different checksums |
| Bech32Triples.ThreeAreRejected | crates/erpc-chain-avax/src/registration.rs:65-115 | Changing one, two or three characters of the body of an accepted address, wherever they are, gives a rejected one |
| EventStream.SseParser.constructor | crates/erpc-api/src/ai.rs:222-226 | Nothing is pending |
| EventStream.SseParser.Push | crates/erpc-api/src/ai.rs:230-253 | With the events before, the events of everything read so far; what stays pending has no complete block |
| EventStream.SseParser.TakeBlocks | crates/erpc-api/src/ai.rs:236-251 | Every complete block is taken out, in order, and nothing else |
| EventStream.SseParser.KeepCounted | crates/erpc-api/src/ai.rs:231-234 | Every byte but carriage returns is kept |
| EventStream.BlockEndIsFirst | crates/erpc-api/src/ai.rs:236-236 | A block ends at the first blank line |
| EventStream.DrainMore | crates/erpc-api/src/ai.rs:236-252 | What arrives later changes none of the events already complete |
| EventStream.ChunksDoNotMatter | crates/erpc-api/src/ai.rs:230-253 | However the bytes are cut into chunks, the events and the bytes pending at the end are those of the whole, and what is pending has no complete block |
| EventStream.EventOfWritten | crates/erpc-api/src/ai.rs:238-250 | Every event with a plain name, whatever its data, can be carried by a block and is read back from it |
| EventStream.WireCarries | crates/erpc-api/src/ai.rs:236-252 | A stream of whole blocks is read as their events, one for one and in order, with nothing left |
| EventStream.GaplessIsWhole | crates/erpc-api/src/ai.rs:236-236 | A block without an empty line, followed by a blank line, ends there and nowhere before |
| EventStream.SentEventsArrive | crates/erpc-api/src/ai.rs:230-253 | Any events with plain names and no carriage return in their data, written as blocks, encoded, and cut into any chunks, are pushed back out as themselves |
| Answer.OwnChangesOnly | crates/erpc-api/src/ai.rs:285-335 | A content block is what its own changes make it, whatever other blocks do in between |
| Answer.GrowsToTheJoin | crates/erpc-api/src/ai.rs:293-325 | Deltas add up to the join of their parts, field by field, and touch no other field |
| Answer.SplittingDoesNotMatter | crates/erpc-api/src/ai.rs:375-384 | Two ways of splitting the same parts make the same block |
| Answer.StoppedBlock | crates/erpc-api/src/ai.rs:326-335 | A block that starts, grows and stops has as its input the JSON that its parts join to, and no partial input |
| Answer.StopLeavesNoPartial | crates/erpc-api/src/ai.rs:326-335 | After the last stop of a block no partial input is left in it |
| Answer.TextIsWhatWasHeard | crates/erpc-api/src/ai.rs:298-307 | At every moment, and after an error, the text is what was passed to `on_text`, which is the join of all text deltas |
| Answer.Printable | crates/erpc-api/src/ai.rs:387-393 | A server's word is cut to 300 characters, of which none is a control or reordering character |
| Answer.PrintableStays | crates/erpc-api/src/ai.rs:387-393 | A word of at most 300 visible characters is left as it is |
| Answer.Reply.Take | crates/erpc-api/src/ai.rs:262-368 | `apply` changes the answer in place as the change it was told of says, passes on exactly the new text, and returns the error, if there is one, with what the answer then holds |
| Answer.Reply.AppendTo | crates/erpc-api/src/ai.rs:375-384 | Appends to a text field, making it if it is not there, and changes no field of another kind |
| Answer.Reply.StartBlock | crates/erpc-api/src/ai.rs:285-292 | Placeholders are put in up to the index, and the block at it |
| Answer.Reply.StopBlock | crates/erpc-api/src/ai.rs:326-335 | The partial input becomes the input, or the reading fails |
| Chat.ToldMore | crates/erpc-api/src/ai.rs:625-634 | An error ends the reading for good |
| Chat.EventsAreARun | crates/erpc-api/src/ai.rs:625-634 | What holds of a run of changes holds of the events of a reply |
| Chat.ToldIsHeard | crates/erpc-api/src/ai.rs:604-636 | The answer's text is what was passed on while its bytes came in |
| Chat.ReadReply | crates/erpc-api/src/ai.rs:604-636 | The answer or first error, and the text passed on, depend on the bytes alone and not on the chunks |
| Printer.ShownScript | crates/erpc-ai/src/commands.rs:464-478 | The loop writes each character as the printer shows it |
| Printer.ScriptReadsBack | crates/erpc-ai/src/commands.rs:464-478 | A script can be read back from what is shown of it |
| Printer.Quote | crates/erpc-ai/src/commands.rs:490-511 | The loop quotes an argument exactly when it has to |
| Printer.CommandReadsBack | crates/erpc-ai/src/commands.rs:485-511 | Every command, also one of no arguments or of empty ones, can be read back from what is shown of it |
| Printer.ShownAlikeIsAlike | crates/erpc-ai/src/commands.rs:480-511 | Commands shown alike are the same |
| Printer.ScriptIsSeen | crates/erpc-ai/src/commands.rs:459-478 | Nothing shown of a script is hidden, breaks the line or reorders it |
| Printer.CommandIsSeen | crates/erpc-ai/src/commands.rs:480-511 | Nothing shown of a command is hidden, breaks the line or reorders it |
| Redaction.Redact | crates/erpc-ai/src/commands.rs:432-451 | The loop replaces each value behind a marker; its place in the text grows with every turn |
| Redaction.NextEnd | crates/erpc-ai/src/commands.rs:439-443 | The nearest end of any marker, in any letter case |
| Redaction.ValueEnd | crates/erpc-ai/src/commands.rs:446-448 | A value goes to the next delimiter or the end |
| Redaction.ValueDoesNotShow | crates/erpc-ai/src/commands.rs:432-451 | Whatever markers and values stand around it, the output does not depend on the value behind a marker |
| Redaction.KeyValueDoesNotShow | crates/erpc-ai/src/commands.rs:427-451 | The same for the code's own four markers, in any letter case |
| Redaction.TwiceIsOnce | crates/erpc-ai/src/commands.rs:432-451 | Redacting twice is redacting once |
| Redaction.KeysAreMarkers | crates/erpc-ai/src/commands.rs:433-433 | None of the markers is empty or holds a delimiter |
| Polling.WaitKeeps | crates/erpc-auth/src/device_flow.rs:209-242 | A wait never shortens the interval; slow_down adds five seconds, a network error doubles up to a minute, and the sum stays below the budget |
| Polling.WaitsStayInBudget | crates/erpc-auth/src/device_flow.rs:159-242 | With n waits, s of them after slow_down: the interval is at least first + 5s seconds, first is at least the server's and five seconds, and n * first + 5 * s * (s + 1) / 2 seconds are inside the budget |
| Polling.WaitsAreFew | crates/erpc-auth/src/device_flow.rs:236-242 | So polling ends |
| Polling.Poller.constructor | crates/erpc-auth/src/device_flow.rs:169-175 | A server interval below five seconds is raised to it |
| Polling.Poller.NextWait | crates/erpc-auth/src/device_flow.rs:193-233 | Waits exactly when the outcome allows it and the interval fits the budget, and otherwise stops with what the outcome calls for; approval needs both tokens well formed |
| Polling.Poller.Advance | crates/erpc-auth/src/device_flow.rs:236-242 | Charges the interval, without overflow, or stops as expired |
| Polling.PollUntilStopped | crates/erpc-auth/src/session.rs:139-157 | The login loop polls exactly as long as the answers let it wait, which is fewer times than the budget holds five-second intervals, and ends with the verdict on the first answer that does not |
| BinaryDigits.AndMask | crates/erpc-chain-op/src/access.rs:35-43 | Masking with n ones keeps the remainder by 2^n |
| AccessList.One | crates/erpc-chain-op/src/access.rs:13-43 | Each value is blank, one rule, or the first of its errors |
| AccessList.Mask | crates/erpc-chain-op/src/access.rs:35-40 | Taking an address and the mask digit by digit gives the remainder of the address by the size of the network; the shift never exceeds 127 and the mask fits 128 bits, also for a host part of all 128 |
| AccessList.List | crates/erpc-chain-op/src/access.rs:10-53 | The loop makes the list that the values say |
| AccessList.ReadIsPermitted | crates/erpc-chain-op/src/access.rs:25-43 | What is accepted is aligned to its own size, in range, and world-wide only when allowed |
| AccessList.FailsExactly | crates/erpc-chain-op/src/access.rs:13-43 | The list fails if and only if a value that is not blank is no rule |
| AccessList.SameAddressesSameRule | crates/erpc-chain-op/src/access.rs:44-51 | Two aligned rules that cover the same addresses are the same rule |
| AccessList.WriteReadsBack | crates/erpc-chain-op/src/access.rs:44-48 | A canonical rule is read back as itself |
| AccessList.MergedExactly | crates/erpc-chain-op/src/access.rs:44-51 | Two values are merged if and only if they cover the same addresses |
| AccessList.ListedIsWellFormed | crates/erpc-chain-op/src/access.rs:10-53 | Every network written is aligned, and none is written twice |
| AccessList.OutputSaysTheSame | crates/erpc-chain-op/src/access.rs:10-53 | The output stands for the very rules of the input |
| AccessList.SameAddressesAdmitted | crates/erpc-chain-op/src/access.rs:10-53 | The output covers exactly the addresses that the input covers |
| AccessList.ListingTwice | crates/erpc-chain-op/src/access.rs:10-53 | A list in canonical form is its own canonical form |

## Left out

- HTTP, TLS, keychain, 1Password, files, clocks and the async runtime: their outcomes are arguments of the steps and methods.
- Panics inside a rotation and a `send` whose future is dropped in the middle of a turn.
- SHA-256 in `node_id_valid` is the parameter `checksum`; JSON parsing and lossy decoding of a complete block are the parameters `parse` and `decode`.
- `Session::ask`: a round meets an answer, an error, an abort or a refusal, and how it got there is not modelled; nor are token counts, policies and whether the conversation has reached the main model.
- The steps of `top_up_credit` before the signature is submitted, and the wording of its reports.
- Session.Machine.StoreNewSession: takes the issuer's token as fresh, because the issuer never hands out a token twice.
- ChatSession.EveryRunIsPaired: takes it that what `restore` accepts answers its calls, because `restore` checks roles only; ChatSession.EveryRunIsPairedExactly is the exact condition.
- Conversation.ResultsAnswerCalls: the texts of results are arguments, and only their ids, order and number are the session's own.
- Compact.ShrunkIsPaired: text length is counted in characters, where the code counts characters for the cut and the printed form for other JSON.
- Cb58.Multiply: the bytes are a sequence that the loop reassigns, because the vector also grows in front.
- Bech32.AddGenerators: tests the lowest bit of what is left of the top instead of shifting it anew for each generator.
- EventStream.SentEventsArrive: takes data without carriage returns, because the code drops each of them wherever it stands.
- Bech32Triples.ThreeAreRejected: says nothing of four changed characters, which the Bech32 section of BIP 173 also promises.
- EventStream.EventOfWritten: a line is cut at line feeds only, because no carriage return is left when lines are cut.
- Chat.ReadReply: the kind of a provider's error is kept as its word and not sorted into a trouble; refusals before the stream are not modelled.
- AccessList.List: how addresses and prefix lengths are written is the parameter `Notation`, read back from what is written.
- Polling.Poller.NextWait: the shape of a token is the parameter `flaw`.
- `transcript` and the printed size of a history: text for the service and a number, both arguments here.
- `advertise`, deposits and validator terms, release selection, network tables, command policies, prompts, translations and dashboards: short scans or tables that would only add easy members.
