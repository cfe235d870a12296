# A verified model of the transactional key/value server

A C++ server keeps named tables of string pairs. Any number of clients, one thread each, push
and pop values on a private stack, do arithmetic on it, and get and set table entries, alone or in
transactions. Tables are locked with `trylock` on first touch inside a transaction and kept until
the commit or the failure; outside a transaction every GET or SET waits for the lock, commits and
unlocks. Requests and replies travel as lines of text through a buffered reader.

The project models four parts and connects them.

**The protocol** (`Protocol.dfy` and the modules over it). A step relation over the directory, the
tables with owner, committed and pending maps, and the clients with program counter, stack, mode and
locked set. Finding a table, locking, accessing, each table's commit and each unlock are separate
steps, and tables have identities independent of their names. `Invariant`, `Steps`, `TableSteps`
and `LoopSteps` prove one inductive invariant; the modules after them state what it gives over
all runs:

- `Serializability`: every interleaving refines an atomic store in which a transaction takes effect
  when its COMMIT is accepted and an autocommit request at its `commit_changes`; unfinished
  transactions see consistent data; tables are touched by their lock owners only.
- `Rollback`, `Deadlock`, `Directory`: what a failed lock attempt restores, which waits can occur and
  exactly what a cycle of waits needs, and when a name keeps its table.
- `Increments`, `IncrementRuns`: the increment program loses no update.
- `Values`: every stored value can be sent back; this joins the protocol to the wire format.
- `Witnesses`: the locks leaked and the overlaps that the results above depend on do occur.
- `Crowds`: any number of clients connect, only a held mutex makes a thread wait, and transactions of
  different clients really overlap.
- `Endings`: which steps take the process down, and which lines a client can send bring them about.
- `PostfixEval`: the postorder of an expression evaluates it.

**The wire** (`Messages`, `Codec`, `RoundTrip`, `Rio`, `Framing`). The decoder with its index loops is
proved equal to a recursive tokenizer; decode and encode are shown inverse exactly where they are; the
buffered reader is proved to deliver the same lines and blocks however the bytes arrive.

**The conversation in plain text** (`RequestLines`, `Transcripts`). Every request word and argument form against
literal lines, and whole conversations, byte for byte: an expression, a stored value, a transaction, a
refusal.

**The objects** (`Table`, `ValueStack`, `Server`, `Connection`). Classes with the fields of the C++
objects, and methods proved against functions on their values. `BigStep` says what a request means when
its thread runs undisturbed, proves that the steps of the protocol add up to exactly that, and is the
specification of the connection's handlers and of its whole chat loop over a byte stream.

**Integers** (`Numerals`, `Calculator`, `Ltoa`). Printing and parsing, the arithmetic bounds, and the
digit printer with its in-place reversal.

## Where the code departs from its intent

The model follows the code, and the theorems say what results.

- `Table::get` (table.cpp:60) compares an iterator of one map with the end of another. The model takes
  them as never equal, so a GET of a missing key reads the empty string and inserts it in the committed
  map; the step label `Throw` covers the other outcome, an uncaught exception that ends the process. The
  atomic store reads absent keys as the empty string, so serializability needs no hypothesis about
  missing keys. What such a GET leaves behind is said where it matters: `Rollback.RollbackRestores` names
  the keys, `Values.ValuesStayStorable` the empty values, and `TableHistory.HasKeyIsHonest` says exactly
  what `has_key` loses.
- An operation that fails inside a transaction (client_connection.cpp:107-109) throws from within a
  handler; no sibling clause catches it, so the process ends (`down`). A division by zero, and a line on
  which the decoder indexes past the end (`std::out_of_range`), end it as well. `Endings.RunsEnd` says
  exactly which line, step or request takes a run down, and three witnesses show that any logged-in client
  can. In the object model these are the outcome `Dies`.
- An autocommit SET on an empty stack (client_connection.cpp:203-208) keeps the table locked; `leaked`
  records it. README.txt of the repository claims freedom from deadlocks: `Witnesses.LeakArises`,
  `LeakBlocksItsClient` and `SelfBlockedForever` show a client that blocks itself for ever, and
  `Deadlock.CyclesAreLeaks` that a cycle of waits is exactly a ring of clients each waiting for what the
  next one leaked.
- BYE, an error or the end of input in a transaction leaves the locks held. Safety is proved with it.
- CREATE is a find followed by a separate create; `Witnesses.OverlapArises` and
  `Witnesses.OverlapRebinds` show the rebinding and `Directory.BindingIsStable` that only an overlap can
  cause it.
- `locked_tables` names tables already unlocked while a commit or rollback loop runs;
  `Serializability.LockedTablesAreOwned` says exactly when it is within the owned set.
- The constructor does not initialise `logged_in`: a connecting client has an arbitrary flag.
- The decoder's index bound drops an unclosed quoted token without an error in a line of exactly 1024
  bytes; `RoundTrip.RunsOffOddLines` states exactly which lines run off the end.
- `sio_ltoa` prints the least 64-bit integer wrongly; `Ltoa.PrintedDenotes` is an equivalence.

## Model

| member | source | states |
|---|---|---|
| Serializability.RunsAreSerializable | client_connection.cpp:170-307 | in every reachable state, running the recorded transactions one after the other succeeds: each gets from every GET and TOP the value it got in the run, ends with the stack it ended with, and together they yield the committed tables; tables a commit loop has still to reach count as committed |
| Serializability.ReadsAreSerial | client_connection.cpp:170-192 | every value a GET of a committed transaction returned, kept or thrown away, is the one the serial run reads at that point |
| Serializability.StacksAreSerial | client_connection.cpp:95-99 | every committed transaction, run at its place in the serial order, ends with the stack its client had, and every TOP in it answered the value on top at that point |
| Serializability.StepsRefineAtomicStore | client_connection.cpp:95-99 | each step of any thread is one whole transaction of the atomic store, or none; it is one at an accepted COMMIT and at an autocommit commit_changes |
| Serializability.LiveTransactionsSeeConsistentData | client_connection.cpp:273-289 | replaying an unfinished transaction on the committed store of this moment reproduces its stack and everything visible in the tables it locked, and it touched no other table |
| Serializability.LocksGuardTables | table.h:46-52 | whoever changes a table's maps owns its mutex; a mutex is taken only when free and given back only by its owner, with nothing pending |
| Serializability.LockedTablesAreOwned | client_connection.cpp:268-307 | locked_tables equals the owned set between requests exactly when no autocommit SET failed, is within it except while a loop unlocks, is empty outside transactions; pending changes imply a lock |
| Crowds.EveryoneMayCome | server.cpp:44-64 | while the server is up anyone not connected can connect, with either login flag, and starts with nothing; a client without a request in progress can send any request |
| Crowds.OnlyHeldMutexesBlock | client_connection.cpp:170-307 | a thread inside a request can go on exactly when it does not wait for a mutex, whatever the other clients do; a loop over the locked tables may take any of them next |
| Crowds.EverybodyConnects | server.cpp:44-64 | for every finite set of clients there is a reachable state in which exactly they are connected, logged in and idle |
| Crowds.TransactionsOverlap | client_connection.cpp:95-99 | two clients each hold a table they have written in an open transaction; both COMMITs are accepted before any table is committed, and in the end both entries are in the history, both values in their tables and both clients are answered OK |
| LoopSteps.StepKeepsInvariant | client_connection.cpp:29-126 | every step of every thread keeps the invariant of locks, pending maps, views and history |
| LoopSteps.RunsKeepInvariant | client_connection.cpp:29-126 | so every state of every run has it |
| SerialFacts.ExecAgrees | table.cpp:50-69 | executing commands on two stores that read alike on the touched tables gives the same stack and the same readings |
| Rollback.RollbackRestores | client_connection.cpp:291-298 | when a rollback is about to unlock a table, nothing is pending in it and its map is the one it had when the transaction took its free mutex, however long ago, plus empty values under exactly the keys that GETs of this transaction found missing in it |
| Rollback.FailedLockKeepsStack | client_connection.cpp:113-116 | a failed lock attempt and every step of its rollback leave the stack alone, and the last one leaves the client with nothing locked and FAILED as its answer |
| Deadlock.WaitingClientsOwnWhatTheyLeaked | client_connection.cpp:273-277 | a client waiting for a table owns exactly what its failed autocommit SETs left locked, and not the directory; the directory's holder waits for nothing |
| Deadlock.WaitChainsAreShort | server.cpp:101-118 | while nobody leaked a lock, a chain of waits has at most two links |
| Deadlock.CyclesAreLeaks | client_connection.cpp:203-208 | a closed path of clients is a cycle of waits exactly when each waits for a table whose lock the next one leaked |
| Deadlock.LeaksComeFromEmptyStacks | client_connection.cpp:203-208 | a step adds to what a client leaked exactly when it is its SET outside a transaction on an empty stack |
| Deadlock.NoDeadlockWithoutLeaks | client_connection.cpp:273-289 | while nobody leaked a lock no cycle of waits is reachable |
| Witnesses.LeakArises | client_connection.cpp:203-208 | from any state in which a client may send a request, a SET of a free table outside a transaction on an empty stack is answered FAILED and keeps the table locked |
| Witnesses.LeakBlocksItsClient | client_connection.cpp:273-277 | the same client's next GET of that table reaches the blocking lock on a mutex it owns itself |
| Witnesses.SelfBlockedForever | client_connection.cpp:273-277 | and no step of any thread ever frees it |
| Deadlock.LeakDeadlocks | client_connection.cpp:203-208 | a client that leaked a table's lock and asks for the table again outside a transaction waits for itself |
| Directory.BindingChanges | server.cpp:101-106 | in any step a bound name stays bound, and its table changes exactly at the create step of a CREATE of that name |
| Directory.FoundTablesBearTheirName | server.cpp:108-118 | find_table hands out only tables created under the name asked for |
| Directory.BindingIsStable | client_connection.cpp:128-139 | if no two CREATEs of a name overlap between find and create, its binding never changes |
| Witnesses.OverlapArises | client_connection.cpp:128-139 | any two clients that may send requests can both find a name unbound before either creates its table |
| Witnesses.OverlapRebinds | client_connection.cpp:128-139 | from every reachable overlap of two CREATEs of a name, wherever they stand and whoever holds the directory, as long as the server is up, some run binds the name and then binds it to another table |
| Endings.StepEnds | client_connection.cpp:107-123 | a step of any thread ends the process exactly at a GET of a missing key that throws, a line the decoder runs off, a POP, TOP, SET or arithmetic request that fails inside a transaction, or a division by zero |
| Endings.GarbledLines | message_serialization.cpp:40-112 | a line with no newline inside makes the decoder run off its end exactly when it is empty, or below the limit with an odd number of quotes after its type |
| Endings.ReceivedLines | csapp.c:877-899 | whatever arrives, what the chat loop decodes has no newline inside |
| Endings.RunsEnd | client_connection.cpp:29-126 | a run whose requests came as lines goes down exactly at the first such line, throwing GET or failing request, and is over there |
| Endings.FailedPopEndsTheProcess | client_connection.cpp:107-109 | BEGIN and POP by any client with an empty stack take the server down |
| Endings.LoneQuoteEndsTheProcess | message_serialization.cpp:81-95 | so does the line of a TOP followed by a lone quote |
| Endings.DivisionByZeroEndsTheProcess | client_connection.cpp:88-90 | so does a DIV by a zero just pushed |
| Increments.SerialIncrements | incr_value.cpp:92-204 | serially, the number in a cell grows by one for each increment transaction |
| IncrementRuns.ScriptTakesEffect | incr_value.cpp:68-204 | a client on the script takes effect exactly when its COMMIT is accepted, with exactly the four commands of one increment |
| IncrementRuns.NoLostIncrements | incr_value.cpp:68-204 | in every interleaving, a key nobody else sets holds its initial number plus the number of accepted COMMITs of the script's clients, and these have been answered OK once no commit loop runs |
| Values.PushedValuesAreStorable | message.cpp:234-249 | a value that a line can push is non-empty, free of blanks and quotes and at most 1018 bytes long |
| Values.HeldValuesComeBack | client_connection.cpp:160-168 | a stored value fits a DATA reply, and the client decodes it to the same value exactly when it is not empty |
| Values.ValuesStayStorable | client_connection.cpp:141-259 | in every run whose requests came as lines, every value on a stack, in a table or in a reply is storable, or empty after a GET of a missing key |
| Values.TopRepliesArrive | client_connection.cpp:261-266 | so the encoding of a TOP reply, which is outside the try block, never throws |
| RequestLines.PlainRequests | client_connection.cpp:60-106 | the lines POP, TOP, ADD, MUL, SUB, DIV, BEGIN, COMMIT and BYE are those requests |
| RequestLines.LoginRequests | client_connection.cpp:49-57 | LOGIN and a word is a login exactly when the word is a name |
| RequestLines.CreateRequests | client_connection.cpp:61-63 | CREATE and a word creates that table exactly when the word is a name |
| RequestLines.SetRequests | client_connection.cpp:73-75 | SET and two words sets that key of that table exactly when both are names |
| RequestLines.GetRequests | client_connection.cpp:76-78 | GET and two words gets that key of that table exactly when both are names |
| RequestLines.PushRequests | client_connection.cpp:64-66 | PUSH and a word pushes it exactly when it holds no blank of any kind |
| RequestLines.RequestsAreSpelled | client_connection.cpp:60-106 | whatever its spacing, a line taken for a request has that request's word first and its arguments after it, so a line with any other first word is refused |
| PostfixEval.ServerEvaluates | client_connection.cpp:227-259 | the postorder of any expression leaves its value on the stack with everything below and everything else in the server unchanged; an operand outside 32 bits makes the request fail, and ends the process in a transaction, as a division by zero does anywhere |
| PostfixEval.ArithmeticStep | client_connection.cpp:79-90 | one operator request combines the two numerals on top, the deeper one on the left |
| Transcripts.ExpressionTranscript | client_connection.cpp:79-90 | the lines of any expression's postorder and TOP are answered OK, line by line, and then with DATA and the value; what follows is served from the stack with that value on top |
| Transcripts.StoreTranscript | client_connection.cpp:170-225 | PUSH v, SET n k, GET n k and TOP are answered OK, OK, OK and DATA v, inside a transaction and outside, and change that key of that table only |
| Transcripts.TransactionTranscript | client_connection.cpp:91-99 | between BEGIN and COMMIT these lines see their own value; the COMMIT makes it the table's, frees the table and leaves all others alone |
| Transcripts.FirstConversation | client_connection.cpp:29-126 | to a server just started: log in, create a table, store any value, read it back, leave; every byte of the answers and the table left |
| Transcripts.LoginComesFirst | client_connection.cpp:49-57 | before the login any line with another first word is answered ERROR and ends the conversation |
| Transcripts.EmptyPop | client_connection.cpp:148-158 | POP on an empty stack is answered FAILED outside a transaction and ends the process inside one |
| Transcripts.WrongTable | client_connection.cpp:128-139 | creating a bound name, and setting or getting in an unbound one, is answered ERROR and ends the conversation |
| Transcripts.AnswersRead | client_connection.cpp:261-266 | the bytes that tell of OK and DATA answers are the lines OK and DATA with the value, in order |
| Calculator.ArithmeticOutcome | client_connection.cpp:227-259 | with fewer than two values, or two that are no numbers, the request fails and what it popped is gone; otherwise the result replaces the two values or the process traps |
| Numerals.QuotientTruncates | client_connection.cpp:88-90 | dividend = divisor * quotient + remainder, the remainder smaller than the divisor and zero or of the dividend's sign, for every sign of both |
| Numerals.QuotientIsUnique | client_connection.cpp:88-90 | and no other quotient has that |
| Calculator.ArithmeticFits | client_connection.cpp:79-90 | on operands parsed to 32 bits no operator leaves 64 bits, and only a division by zero traps |
| Calculator.OversizedResultIsRejected | client_connection.cpp:243-259 | a result outside 32 bits makes the next arithmetic request fail and never wraps |
| Numerals.StoiOfToString | client_connection.cpp:236-252 | reading back a printed integer gives the integer, or fails exactly when it is outside 32 bits |
| Numerals.DecimalText | client_connection.cpp:236-237 | a printed number is its decimal digits, most significant first, after a minus sign when negative |
| Numerals.StoiReads | client_connection.cpp:251-252 | blanks, at most one sign, leading zeros and a numeral are read as the number whatever follows, if it is between -2147483648 and 2147483647 |
| Numerals.StoiFails | client_connection.cpp:251-252 | and without a digit there the conversion throws |
| Numerals.TextParses | csapp.c:244-261 | a printed number of any base parses back to itself |
| Ltoa.PrintedDenotes | csapp.c:244-261 | what sio_ltoa prints parses back exactly when the number is not the least 64-bit integer, and takes at most 64 characters before its NUL |
| Ltoa.PrintedShape | csapp.c:244-261 | a sign only on negative numbers, digits of the base, no superfluous leading zero |
| Numerals.DigitTable | csapp.c:252-253 | the digits of the bases up to 36 are 0 to 9 and a to z |
| Ltoa.SioReverse | csapp.c:232-241 | reverses a NUL-terminated text in place and nothing behind it |
| Ltoa.SioLtoa | csapp.c:244-261 | leaves exactly that text and its NUL in the array, and nothing behind it changes |
| Ltoa.SioPutl | csapp.c:282-288 | 128 characters are enough in base 10 |
| TableHistory.GetAgreesWithHistory | table.cpp:55-69 | get returns the last value set and not undone by a rollback, for any history of set, get, commit and rollback |
| TableHistory.HasKeyAgreesWithHistory | table.cpp:72-84 | has_key is true exactly when a set of the key was not undone or a get found it missing |
| TableHistory.HasKeyIsHonest | table.cpp:55-84 | has_key agrees with the sets after every prefix exactly when every get named a key the table held |
| TableHistory.CommitIsInvisible | table.cpp:86-107 | committing leaves what get returns unchanged, and a rollback after it undoes nothing |
| SharedTable.Table.TryLock | table.cpp:45-48 | takes the mutex exactly when it is free |
| SharedTable.Table.Get | table.cpp:55-69 | a pending value hides the committed one, and a missing key is inserted |
| SharedTable.Table.HasKey | table.cpp:72-84 | true exactly when one of the maps has the key |
| SharedTable.Table.CommitChanges | table.cpp:86-100 | the loop merges the pending map into the committed one in whatever order it runs, and empties it |
| SharedTable.Table.RollbackChanges | table.cpp:102-107 | empties the pending map only |
| ValueStacks.ValueStack.Push | value_stack.cpp:33-40 | puts a value on top and keeps the count right |
| ValueStacks.ValueStack.GetTop | value_stack.cpp:42-51 | the top, or the exception exactly when the stack is empty |
| ValueStacks.ValueStack.Pop | value_stack.cpp:53-64 | removes the top, or throws exactly when the stack is empty and changes nothing |
| Directories.Server.CreateTable | server.cpp:101-106 | binds the name to a new empty table and leaves the others alone |
| Directories.Server.FindTable | server.cpp:108-118 | the bound table, or null exactly when the name is not bound |
| BigStep.UndisturbedRequests | client_connection.cpp:29-126 | however the loops over the locked tables are ordered, the steps of a thread that runs undisturbed add up to the meaning of its request |
| BigStep.RequestsComplete | client_connection.cpp:29-126 | and unless the request must wait for a mutex, they reach its end |
| BigStep.StepRest | client_connection.cpp:170-307 | from any point of the code one step leaves the meaning of the rest of the request as it is |
| Connections.ClientConnection.HandleTableLocking | client_connection.cpp:273-289 | takes the lock, keeps one already held, or fails, and records what it took in a transaction |
| Connections.ClientConnection.GetRequestHandler | client_connection.cpp:170-192 | the objects end up as the meaning of the GET says, through whichever exception |
| Connections.ClientConnection.SetRequestHandler | client_connection.cpp:194-225 | the objects end up as the meaning of the SET says: popped value pending or committed, lock kept when the stack was empty, the exception otherwise |
| Connections.ClientConnection.CreateRequestHandler | client_connection.cpp:128-139 | a new table is bound exactly when the name was found unbound; otherwise the exception and no change |
| Connections.ClientConnection.PopTwoValues | client_connection.cpp:243-259 | both operands, or failure with everything popped so far gone |
| Connections.ClientConnection.ArithmeticRequestHandler | client_connection.cpp:227-241 | the stack ends up with the result for the two operands, without both of them on a failure, or the process traps |
| Connections.ClientConnection.CommitTables | client_connection.cpp:300-307 | commits and unlocks exactly the locked tables, in any order |
| Connections.ClientConnection.RollbackTables | client_connection.cpp:291-298 | rolls back and unlocks exactly the locked tables, in any order |
| Connections.ClientConnection.Catch | client_connection.cpp:107-123 | what the catch clauses make of each exception |
| Connections.ClientConnection.Serve | client_connection.cpp:49-123 | one turn of the chat loop does what the request means |
| Connections.ToldText | client_connection.cpp:261-266 | what tells of a reply is the line OK, the line DATA with the value, or a line that begins with FAILED or ERROR |
| Connections.RepliesDecode | message_serialization.cpp:40-119 | a client decodes the first two to the same answer and value, unless the value is empty |
| Connections.ClientConnection.ReturnResponseToClient | client_connection.cpp:261-266 | writes the line of the response, in plain text, or ends the process exactly when a value is too long for a line |
| Connections.ClientConnection.ChatWithClient | client_connection.cpp:29-126 | over a whole stream of bytes, the answers, the state left and how it ends are those of its requests' meanings in order, and the bytes written are the lines of the answers in plain text |
| Connections.SentMessagesAreRequests | client_connection.cpp:36-47 | a message sent whole is served as the request it is, whatever follows it in the stream |
| Messages.IdentifierIsValid | message.cpp:216-231 | true exactly of the identifiers, '@' counting as a letter |
| Messages.IdentifierAlphabet | message.cpp:216-231 | the identifiers are the non-empty texts of the letters A to Z and a to z and '@', with '_' and the digits allowed after the first character |
| Messages.ValueIsValid | message.cpp:234-249 | true exactly of non-empty texts without blanks |
| Messages.ValueAlphabet | message.cpp:234-249 | the values are the non-empty texts without tab, newline, vertical tab, form feed, carriage return and space |
| Messages.QuotedTextIsValid | message.cpp:252-263 | true exactly when no quote lies strictly inside |
| Messages.IsValid | message.cpp:147-213 | true exactly when the number and the form of the arguments suit the type |
| Codec.TypeRoundTrip | message_serialization.cpp:121-239 | a type's name determines the type |
| Codec.Encode | message_serialization.cpp:19-38 | the type and its arguments separated by single spaces and ended by a newline, or the exception exactly above 1024 bytes |
| Codec.DecodeQuoted | message_serialization.cpp:81-95 | the inner loop finds the quoted token of the tokenizer, and indexes past the end exactly on an unclosed quote in a line below the limit |
| Codec.DecodeArguments | message_serialization.cpp:74-112 | the argument loop finds the tokens of the tokenizer, stays in bounds exactly when every quote is closed or the line has the maximal length, and ends |
| Codec.Decode | message_serialization.cpp:40-119 | decoding a line of any content is the tokenizer's result, InvalidMessage or out_of_range |
| RoundTrip.DecodeInvertsEncode | message_serialization.cpp:19-119 | decoding an encoded message gives it back exactly when it is valid, fits a line, and its arguments are clean |
| RoundTrip.OnlyQuotesHarm | message_serialization.cpp:19-119 | for a valid message that is neither FAILED nor ERROR only a quote can do harm |
| RoundTrip.QuotedTextComesBack | message_serialization.cpp:80-95 | a FAILED or ERROR text wrapped in quotes comes back without them exactly when it holds no quote |
| RoundTrip.EncodeIsInjective | message_serialization.cpp:19-38 | different messages of the round-trip class are different lines |
| RoundTrip.ClosedWhenEven | message_serialization.cpp:80-95 | every quote is closed exactly when their number is even |
| RoundTrip.RunsOffOddLines | message_serialization.cpp:74-112 | the decoder indexes past a line's end exactly when the argument part has an odd number of quotes and the line is below the limit |
| RoundTrip.ExtraBlanksDoNotMatter | message_serialization.cpp:54-112 | any number of extra spaces outside quotes and tokens leaves the result alone while the line fits |
| RoundTrip.TokensAreQuoteFree | message_serialization.cpp:74-112 | no decoded argument holds a quote |
| Rio.LineConserves | csapp.c:877-899 | the bytes of a line followed by the rest are the stream, and a line respects its room |
| Rio.SessionsConserve | csapp.c:855-899 | after any mix of calls, what was delivered followed by what is left is the stream |
| Rio.RunCalls | csapp.c:855-899 | the counts and bytes of any mix of calls on one reader are a function of the stream alone, and what they took followed by what is left is the stream |
| Rio.Reader.RioRead | csapp.c:811-836 | hands over the next bytes of the stream, at most n, and moves the unread ones down |
| Rio.Reader.ReadLineB | csapp.c:877-899 | the result and the bytes stored are those of the next line of the stream, however read cut it up |
| Rio.Reader.ReadNB | csapp.c:855-872 | the next n bytes of the stream, or what there is |
| Rio.WriteN | csapp.c:781-798 | all of the data in order, however little each write takes and whatever is interrupted, or -1 after a prefix when a write is refused or takes nothing with errno not EINTR |
| Framing.OneMessageArrives | client_connection.cpp:36-47 | an encoded message of the round-trip class is received as itself exactly when it holds no NUL, and the rest of the stream is untouched |
| Framing.MessagesArrive | client_connection.cpp:36-47 | any number of them arrive in order and nothing else with them |
| Framing.EndToEnd | client_connection.cpp:36-47 | however the bytes were cut up and reading interrupted, the receiver decodes what was sent |
| Framing.EveryDeliveryChops | csapp.c:811-836 | every error-free way for a stream to be delivered in chunks and interruptions is one of those `Exchange` ranges over |
| Framing.Exchange | client_connection.cpp:36-47 | messages written by rio_writen under any pattern of short writes, delivered in chunks of any sizes and read by rio_readlineb and decoded: exactly they arrive, in order, and the stream is at its end |
| Framing.SendAll | client_connection.cpp:261-266 | messages written one after the other leave their encodings on the descriptor in order, under any pattern of short writes |
| Framing.FromCharArray | client_connection.cpp:43-43 | the string made of a character array ends at its first NUL |
| Framing.Receive | client_connection.cpp:36-44 | reading and decoding one request gives the next request of the stream |

## Left out

- Sockets, the accept loop, thread creation and destruction, the wrappers of csapp.c, logging, memory
  release: foreign calls without logic of their own. `read` and `write` are schedules of chunks, short
  counts, interruptions and errors.
- Mutexes are an optional owner. Waiting is a step that is not enabled; in the object model `Table.Lock`
  requires a free mutex, the moment at which the C++ call returns, and the connection's methods require
  that the request need not wait. Interleaving is the subject of the step relation only.
- Connections.ClientConnection.ReturnResponseToClient: the texts of FAILED and ERROR answers are left open,
  up to 100 characters; which of its fixed texts the code sends is not modelled.
- Connections.ClientConnection.ChatWithClient: a conversation that must wait for a mutex is outside its
  contract; waiting is the subject of the step relation.
- Connections.ClientConnection.SetIn: the code after the table lookup is a method of its own, as are the
  successful ends of some handlers; the source has them inline.
- ValueStacks.ValueStack.Push: the count is unbounded, so the overflow of a C++ `int` is not modelled.
- Codec.Decode: the contents of the message object after a failed decoding are unspecified; the chat loop
  does not use them.
- Characters are not limited to one byte, and blanks are the six ASCII ones, not those of a locale.
- The network clients get_value.cpp and set_value.cpp, and incr_value.cpp except for the order of its
  requests and its stop at the first answer other than OK.
- Restoring the value stack after a rollback and releasing locks when a client leaves: the code does
  neither, and the model does not either.
- The round trip of unquoted FAILED and ERROR texts of several words: `encode` adds no quotes, so it does
  not hold.
- The message getters and setters, the guard class and the test harness: only easy members.
