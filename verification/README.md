# Verified models of the systems-programming examples

This project models the hard parts of a collection of C teaching examples and proves what they are
supposed to guarantee, for every size, every input and every interleaving.

Three groups of programs are covered.

* **Concurrent protocols.** Each thread or process is a program counter plus its locals, over shared
  mutexes, semaphores, condition variables and data. A `State`, an `Enabled` predicate and a `Next`
  function give one statement per step; `Leads(s, es, t)` says that the schedule `es` takes `s` to `t`.
  Every theorem about `Leads` from an initial state is a statement about all reachable states. The
  constants of the programs (numbers of threads, items, chairs, buffer sizes, iterations) are
  parameters. Beside each model a class holds the shared variables as fields and executes the
  statements in place; its methods are proved to take exactly the steps of the model, and its `Run`
  executes any schedule and is proved to be a run of the model that ends in its invariant.
* **The `pssh` shell.** `ParseSpec` says what each function of the command-line parser computes over
  the text a buffer holds, `Parser` runs the parser on one char buffer as the program does (trimming,
  blanking and cutting strings in place) and is proved to compute `ParseSpec`, `Grammar` prints
  structured lines in the documented grammar, and `RoundTrip` proves that parsing undoes printing.
  `LineLaws` says, for every line there is, which are accepted and what they come to, from the texts
  between their bars alone, and `Spacing` where spaces matter.
  `Pipeline` is the descriptor plumbing of `execute_tasks`, `JobTable` the array of jobs and
  `JobControl` the SIGCHLD handler, `fg` and launch as transitions of one state machine.
* **Arithmetic.** `Primes` is the trial division and the enumeration loop around it, `Binomial` the
  recursion with a division in it.

Helpers: `SeqMath` (sums and counts over sequences), `Arithmetic` (products and exact quotients).

## What the models assume

System calls succeed. Clocks, sleeping, random numbers and printing are dropped; the value a random
number would give to an item is a parameter. `read` may return any chunk, the scheduler may pick any
enabled step, and a signal may wake any one of the blocked threads. Blocked threads may also wake by
themselves in the bounded buffer, the pipe and the signal chain, where the programs test again in a
loop. In the barrier this is a switch, because the program does not.

## Where the code and its comments differ

* The comment at line 94 of `barrier_synchronization_with_condition_variables.c` says that a thread
  woken by anything but a broadcast goes back to sleep. The loop tests the return value of
  `pthread_cond_wait`, which is 0 on a spurious wakeup too, so the thread leaves the barrier.
  `Barrier.SeparatedExactlyWithoutSpuriousWakeups` gives the exact condition under which rounds stay
  apart; the theorems about the barrier assume no spurious wakeup, and the code is kept as it is.
* `execute_tasks` hands the terminal to a foreground job before it learns that the job table is full.
  `JobControl.LaunchKeepsOwnershipExactly` states when that matters, and
  `JobControl.FullTableLosesTheTerminal` gives a run in which it does.
* A producer of `05-pc_cv.c` that finds the pipe full drops its unit and stays counted, and the
  consumer then waits for ever. With no producers at all it waits for ever too.
  `WorkPipe.NeverStuckExactly` gives the exact condition.
* With no chairs, `sleeping_barber.c` deadlocks as soon as there is a customer:
  `SleepingBarber.DeadlockFreeExactly`.
* `argtok` skips spaces behind an opening quote as well, so a quoted phrase that starts with a space
  does not survive: `RoundTrip.RoundTripsExactly`, and `RoundTrip.LeadingSpaceIsLost` for a line.
* `count_args` reads spaces two by two and so misses an argument behind an even number of them, while
  `argtok` finds it: a word two spaces behind `echo` overruns the argv made for it. `Spacing.SpacesExactly` and
  `Spacing.WordsOnALine` give the exact condition.
* Two bars in a row count as a task that `strtok_r` never hands out, and a lone ampersand is one task
  and no unit. Both are accepted with a task that has no command: `LineLaws.TasksFilledExactly`,
  `Spacing.DoubleBarAccepted`, `Spacing.AmpersandAlone`.
* `is_prime` multiplies two `int`s; `Primes.IsPrimeTrial` says on exactly which numbers that overflows,
  and `Primes.OverflowHappens` names one.
* `n_choose_k` multiplies before it divides, so it can overflow on a result that is an `int`, even on
  the result 0: `Binomial.ComputesExactly` and `Binomial.OverflowOnSmallResults`.
* The consumer of `05-pc_cv.c` keeps the result of `read` in an unsigned variable, so a failed read
  would pass for a unit and count the previous one again. `WorkPipe` models that;
  `WorkPipe.NeverReadsEmptyPipe` shows that it is never reached.

## Model

| member | source | states |
|---|---|---|
| RoundTrip.ParseUndoesShow | code_examples/shackleford/src/projects/pssh/pssh_v2/parse.c:6-14 | for every line of the documented grammar (any tasks, words, quoted phrases, redirections, background flag), parsing the printed line gives back exactly that structure |
| RoundTrip.RoundTripsExactly | code_examples/shackleford/src/projects/pssh/pssh_v2/parse.c:204-231 | a line of the grammar made of clean words, phrases and file names parses back to itself if and only if every phrase is non-empty and does not start with a space and every file name is non-empty without spaces at its ends |
| RoundTrip.LeadingSpaceIsLost | code_examples/shackleford/src/projects/pssh/pssh_v2/parse.c:204-231 | a line on which the round trip fails: a quoted phrase of a space and b comes back as b with a stray quote |
| RoundTrip.BrokenExactly | code_examples/shackleford/src/projects/pssh/pssh_v2/parse.c:411-435 | on any input line the units fit the task array that count_char sized, and the parser goes wrong if and only if it reaches, with nothing refused before, a unit whose tokens do not fit its own argv |
| RoundTrip.UnitsFit | code_examples/shackleford/src/projects/pssh/pssh_v2/parse.c:375-377 | strtok_r finds at most one unit more than there are bars |
| RoundTrip.AcceptedExactly | code_examples/shackleford/src/projects/pssh/pssh_v2/parse.c:157-173 | a printed pipeline with redirections after any of its commands is accepted if and only if input comes after the first command only and output after the last only; otherwise it is reported as invalid syntax |
| RoundTrip.ParsePrinted | code_examples/shackleford/src/projects/pssh/pssh_v2/parse.c:411-435 | the in-place parser, given a buffer holding a printed line, returns the structure it was printed from, or invalid syntax if a redirection is misplaced, and touches no byte outside the line |
| RoundTrip.ParsedIsReadable | code_examples/shackleford/src/projects/pssh/pssh_v2/parse.c:204-231 | on any input line at all, no argument of a parsed task is empty or starts with a space or a quote, and no file name is empty or has spaces at its ends |
| RoundTrip.ShowDetermines | code_examples/shackleford/src/projects/pssh/pssh_v2/parse.c:6-14 | two lines of the grammar that print alike have the same background flag, argument vectors and files |
| RoundTrip.CommandParses | code_examples/shackleford/src/projects/pssh/pssh_v2/parse.c:234-254 | a printed command between blanks yields its argv, and count_args makes room for exactly the tokens argtok returns, so argv ends in its NULL |
| RoundTrip.CountArgsOfCommand | code_examples/shackleford/src/projects/pssh/pssh_v2/parse.c:130-154 | count_args counts every argument of a printed command once, phrases with spaces included |
| RoundTrip.TokensOfCommand | code_examples/shackleford/src/projects/pssh/pssh_v2/parse.c:204-231 | argtok returns the command word and then the texts of the arguments, in order and without quotes |
| RoundTrip.RedirectionsParse | code_examples/shackleford/src/projects/pssh/pssh_v2/parse.c:176-201 | parse_unary extracts each file name in turn and leaves the command followed by blanks only |
| RoundTrip.UnitParses | code_examples/shackleford/src/projects/pssh/pssh_v2/parse.c:257-290 | a printed unit passes the count tests and parses to its own argv, infile and outfile |
| RoundTrip.UnitsParse | code_examples/shackleford/src/projects/pssh/pssh_v2/parse.c:420-429 | splitting at bars finds every printed unit, in order |
| RoundTrip.UnitsRebuild | code_examples/shackleford/src/projects/pssh/pssh_v2/parse.c:317-343 | adding those units one by one fills every task and keeps the redirections of both ends, or ends in a refusal at the first misplaced one |
| RoundTrip.TokensStartable | code_examples/shackleford/src/projects/pssh/pssh_v2/parse.c:204-231 | argtok never returns an empty token or one that starts with a space or a quote |
| LineLaws.AcceptsExactly | code_examples/shackleford/src/projects/pssh/pssh_v2/parse.c:257-435 | for every line whatever and every byte in front of it: the line is accepted if and only if there is no ampersand but at the end, no bar at either end, and every non-empty text between bars has at most one redirection of a kind, quotes in pairs, as many tokens as count_args makes room for, and files with names only at their own ends; and the record then holds what stands before the first operator and after each redirection, task by task |
| LineLaws.UnitIs | code_examples/shackleford/src/projects/pssh/pssh_v2/parse.c:176-201 | blanking out redirections one after the other comes to this: the command is what stands before the first operator and each file what stands between its operator and the next, in either order and with any spaces |
| LineLaws.UnitsAre | code_examples/shackleford/src/projects/pssh/pssh_v2/parse.c:424-432 | the units strtok_r cuts out are the non-empty texts between bars, each parsed as if it stood alone, but for the byte in front of the first |
| LineLaws.SegmentsJoin | code_examples/shackleford/src/projects/pssh/pssh_v2/parse.c:375 | those texts joined by bars are the line again, and there is one more of them than count_char counts bars |
| LineLaws.AmpersandRunsInBackground | code_examples/shackleford/src/projects/pssh/pssh_v2/parse.c:65-79 | an ampersand behind any body without one, with or without blanks on either side, changes the outcome in the background flag and in nothing else |
| LineLaws.AmpersandExactly | code_examples/shackleford/src/projects/pssh/pssh_v2/parse.c:363-368 | the background flag of any parsed line says whether the line ends in an ampersand, and a second ampersand anywhere is invalid syntax |
| LineLaws.RefusedBetweenBars | code_examples/shackleford/src/projects/pssh/pssh_v2/parse.c:261-271 | a line with two redirections of one kind, or an odd number of one kind of quote, anywhere between two bars is never accepted |
| LineLaws.RefusedBarAtEnd | code_examples/shackleford/src/projects/pssh/pssh_v2/parse.c:370-373 | a line that starts with a bar, or ends with one before the ampersand if there is one, is invalid syntax |
| LineLaws.TasksFilledExactly | code_examples/shackleford/src/projects/pssh/pssh_v2/parse.c:375-432 | an accepted line fills in every task it counted if and only if no text between its bars is empty |
| Spacing.BlanksAroundMarks | code_examples/shackleford/src/projects/pssh/pssh_v2/parse.c:6-14 | blanks put in next to any operator, or at either end of any line, make no difference to the outcome |
| Spacing.SpacesExactly | code_examples/shackleford/src/projects/pssh/pssh_v2/parse.c:130-154 | a command whose arguments stand behind odd numbers of spaces parses to its argv, and one of words with an even number anywhere overruns it |
| Spacing.WordsOnALine | code_examples/shackleford/src/projects/pssh/pssh_v2/parse.c:411-435 | a line of words is parsed as one task with those words if and only if every two are an odd number of spaces apart, and otherwise the parser goes wrong |
| Spacing.CountArgsExactly | code_examples/shackleford/src/projects/pssh/pssh_v2/parse.c:130-154 | the scan with its look ahead and inner loops counts, in any text, the arguments a scan of one character at a time finds: one behind every odd number of spaces, a phrase up to its closing quote |
| Spacing.TokensExactly | code_examples/shackleford/src/projects/pssh/pssh_v2/parse.c:204-231 | there is exactly one way to divide a text into gaps and tokens that end at the quote in front of them or else at a space, and argtok finds it |
| Spacing.DoubleBarAccepted | code_examples/shackleford/src/projects/pssh/pssh_v2/parse.c:375-432 | two words with two bars between them are accepted as three tasks, the third of which is never filled in |
| Spacing.AmpersandAlone | code_examples/shackleford/src/projects/pssh/pssh_v2/parse.c:361-378 | a lone ampersand is accepted as one background task that is never filled in |
| Parser.ParseCommandLineText | code_examples/shackleford/src/projects/pssh/pssh_v2/parse.c:411-435 | in place, for every line and every byte in front of the buffer, the outcome is the one ParseSpec gives, invalid syntax included, and no byte outside the line changes |
| Parser.AddUnits | code_examples/shackleford/src/projects/pssh/pssh_v2/parse.c:420-431 | the loop over strtok_r: every unit is cut out, parsed and added where it stands, until one is refused, and no byte outside the text changes |
| Parser.ParseInit | code_examples/shackleford/src/projects/pssh/pssh_v2/parse.c:361-378 | background flag, both syntax tests and the number of tasks, the text that is left in the buffer, and no byte outside the line changed |
| Parser.IsBackground | code_examples/shackleford/src/projects/pssh/pssh_v2/parse.c:65-79 | tells whether the trimmed line ends in an ampersand, whatever stands before it, and takes that ampersand off, touching no byte outside the line |
| Parser.HasTrailing | code_examples/shackleford/src/projects/pssh/pssh_v2/parse.c:105-115 | a bar at either end of the trimmed text; for an empty text the byte in front of the buffer decides; no byte outside the text changes |
| Parser.TrimInPlace | code_examples/shackleford/src/projects/pssh/pssh_v2/parse.c:44-62 | the buffer holds the trimmed string afterwards and no byte outside the string changes |
| Parser.TrimIs | code_examples/shackleford/src/projects/pssh/pssh_v2/parse.c:44-62 | trimming is cutting before the first and after the last character that is not a space |
| Parser.Count | code_examples/shackleford/src/projects/pssh/pssh_v2/parse.c:118-127 | the number of occurrences of the character |
| Parser.CountArguments | code_examples/shackleford/src/projects/pssh/pssh_v2/parse.c:130-154 | the scan computes the argument count of ParseSpec, None exactly when it would pass the terminator |
| Parser.CutUnary | code_examples/shackleford/src/projects/pssh/pssh_v2/parse.c:176-201 | returns the trimmed operand and leaves the text with operator and operand overwritten by spaces, length unchanged |
| Parser.ArgTok | code_examples/shackleford/src/projects/pssh/pssh_v2/parse.c:204-231 | the next token, terminated in place, and the rest of the string untouched behind it |
| Parser.ParseCommandLine | code_examples/shackleford/src/projects/pssh/pssh_v2/parse.c:234-254 | argv is the list of tokens, and None exactly when their number is not the count plus one |
| Parser.ParseUnitAt | code_examples/shackleford/src/projects/pssh/pssh_v2/parse.c:257-290 | a unit is rejected, undefined or parsed as ParseSpec says, and only its own bytes change |
| Parser.Record.Add | code_examples/shackleford/src/projects/pssh/pssh_v2/parse.c:317-343 | the syntax rules for a unit at its position, and the record it leaves |
| Parser.StrTok | code_examples/shackleford/src/projects/pssh/pssh_v2/parse.c:420-423 | the next text between bars as a string in place, with the rest of the line intact behind it |
| WorkCrew.ShutdownNeverBlocksAWorker | code_examples/thr_sync/work_queue.c:147-171 | after the contractor breaks out still holding work_queue_lock, no worker waits for that lock or ever will, and no token and no item is left |
| WorkCrew.NoNullItem | code_examples/thr_sync/work_queue.c:97-109 | remove_item never returns NULL to a worker: whoever is about to call it finds an item |
| WorkCrew.NobodyDiesWithAnItem | code_examples/thr_sync/work_queue.c:106-111 | a cancellation never takes effect on a worker with an item in hand, because cancellation is disabled while it works on one |
| WorkCrew.NoDeadlock | code_examples/thr_sync/work_queue.c:90-174 | until the contractor has joined every worker some thread can move, for any number of workers and items, and with a worker on the crew a run to the exit exists from every reachable state |
| WorkCrew.CanFinishExactly | code_examples/thr_sync/work_queue.c:90-174 | from every reachable state the contractor can still reach its exit if and only if there is at least one worker or no item |
| WorkCrew.WorkersNeverAllStuck | code_examples/thr_sync/work_queue.c:97-115 | with items on the list, the contractor off the lock and no token left to post, some worker can move |
| WorkCrew.EveryItemOnce | code_examples/thr_sync/work_queue.c:118-174 | when the contractor exits every worker is dead and each of the items was processed exactly once |
| WorkCrew.ShutdownTerminates | code_examples/thr_sync/work_queue.c:156-171 | from the break on every schedule is finite, and one that cannot go on has ended with all workers joined |
| WorkCrew.Crew.StepBoss | code_examples/thr_sync/work_queue.c:118-174 | each statement of the contractor, on the real linked list, takes exactly its step of the protocol |
| WorkCrew.Crew.StepWorker | code_examples/thr_sync/work_queue.c:90-115 | likewise each statement of a worker; items in hand stay distinct, off the list and not freed, and processing an item frees it and nothing else |
| WorkCrew.Crew.Cancelled | code_examples/thr_sync/work_queue.c:90-115 | a worker with a pending cancellation dies at a cancellation point and changes nothing else |
| WorkCrew.Crew.Run | code_examples/thr_sync/work_queue.c:90-174 | under any schedule the program on the linked list makes a run of the protocol, ends in its invariant and frees one node for each item processed |
| WorkQueue.FirstInFirstOut | code_examples/thr_sync/work_queue.c:40-68 | over any sequence of adds and removes, what came out followed by what is left is what went in |
| WorkQueue.Run | code_examples/thr_sync/work_queue.c:40-68 | the linked list behaves as that queue under any interleaving of operations with every removed node freed, and no freed node is ever read or written |
| WorkQueue.Queue.AddItem | code_examples/thr_sync/work_queue.c:56-68 | appends the node, also after tail went stale, and keeps the list, its tail and its length right |
| WorkQueue.Queue.RemoveItem | code_examples/thr_sync/work_queue.c:40-53 | takes the first node off, or returns NULL and changes nothing when there is none |
| DiningPhilosophers.NoDeadlock | code_examples/thr/dining_philosophers.c:75-150 | for any N of at least 2, no reachable state is stuck while some philosopher has not left |
| DiningPhilosophers.WaitChainsEnd | code_examples/thr/dining_philosophers.c:82-138 | whoever waits for a lock waits for a philosopher who can move or who waits for one who can: no cycle of waiting can form |
| DiningPhilosophers.NeighboursNeverBothEat | code_examples/thr/dining_philosophers.c:82-138 | two neighbours never both own their two chopsticks |
| DiningPhilosophers.FlagsMatchOwners | code_examples/thr/dining_philosophers.c:82-138 | a chopstick's flag is 0 exactly when one, and only one, of its two neighbours owns it |
| DiningPhilosophers.MealsAddUp | code_examples/thr/dining_philosophers.c:96-100 | the meals of the philosophers sum to the shared counter plus the increments under way |
| DiningPhilosophers.FinalMeals | code_examples/thr/dining_philosophers.c:79-100 | when all have left, between MAX and MAX + N - 1 meals were eaten, although the loop test takes no lock |
| DiningPhilosophers.EverybodyCanLeave | code_examples/thr/dining_philosophers.c:75-150 | from every reachable state a run exists in which everybody leaves, with at least MAX meals eaten |
| DiningPhilosophers.OneMealEachTime | code_examples/thr/dining_philosophers.c:91-112 | in every run a philosopher eats exactly one meal between taking the chopstick on his right and putting it back |
| DiningPhilosophers.RightIsModulo | code_examples/thr/dining_philosophers.c:82-92 | the right neighbour used in the model is (i + 1) % N |
| DiningPhilosophers.Table.Step | code_examples/thr/dining_philosophers.c:75-150 | each statement of a philosopher on the shared arrays takes exactly its step of the protocol, the two meal counters included |
| DiningPhilosophers.Table.CanStep | code_examples/thr/dining_philosophers.c:75-150 | decides whether a philosopher is blocked on a lock |
| DiningPhilosophers.Table.Dine | code_examples/thr/dining_philosophers.c:75-150 | any schedule is a run of the protocol and ends in a state satisfying its invariant |
| Barrier.RoundsInStep | code_examples/thr/barrier_synchronization_with_condition_variables.c:63-97 | without spurious wakeups, the rounds completed by any two threads differ by at most one |
| Barrier.SeparatedExactlyWithoutSpuriousWakeups | code_examples/thr/barrier_synchronization_with_condition_variables.c:83-97 | no thread leaves a round before all have entered it, in any reachable state, if and only if there are no spurious wakeups, or one thread, or no rounds |
| Barrier.SpuriousEscape | code_examples/thr/barrier_synchronization_with_condition_variables.c:94-95 | a run in which a thread that wakes by itself leaves round 0 while another has not arrived |
| Barrier.CounterCountsTheBlocked | code_examples/thr/barrier_synchronization_with_condition_variables.c:83-97 | with the mutex free, the counter is the number of threads blocked in the open round, and less than N |
| Barrier.NoDeadlock | code_examples/thr/barrier_synchronization_with_condition_variables.c:63-97 | for any N and K no reachable state is stuck before every thread has done its K rounds |
| Barrier.EveryRunEnds | code_examples/thr/barrier_synchronization_with_condition_variables.c:63-97 | without spurious wakeups every run of N threads is at most N (7 K + 7) steps long, and one that cannot go on has taken every thread through its K rounds |
| Barrier.Shared.Step | code_examples/thr/barrier_synchronization_with_condition_variables.c:63-97 | each statement on the shared barrier takes exactly its step of the protocol |
| Barrier.Shared.Run | code_examples/thr/barrier_synchronization_with_condition_variables.c:63-97 | any schedule is a run of the protocol and, without spurious wakeups, ends in its invariant with rounds separate |
| SleepingBarber.OneInTheSeat | code_examples/thr/sleeping_barber.c:111-133 | at most one customer is in the seat |
| SleepingBarber.WaitingIsServed | code_examples/thr/sleeping_barber.c:88-133 | while a customer waits for a cut the shop is not closing and exactly one wake-up, cut or done signal for that customer is under way |
| SleepingBarber.EverybodyServed | code_examples/thr/sleeping_barber.c:57-108 | when the barber goes home he has cut each customer's hair once and all have left |
| SleepingBarber.DeadlockFreeExactly | code_examples/thr/sleeping_barber.c:57-133 | no reachable state is deadlocked if and only if there is at least one chair or no customer |
| SleepingBarber.EveryRunCloses | code_examples/thr/sleeping_barber.c:57-133 | every run is at most 13 n + 11 steps long, and one that cannot go on has closed the shop with n haircuts |
| SleepingBarber.Shop.StepCustomer | code_examples/thr/sleeping_barber.c:111-133 | each statement of a customer takes exactly its step of the protocol |
| SleepingBarber.Shop.StepBarber | code_examples/thr/sleeping_barber.c:88-108 | likewise for the barber |
| SleepingBarber.Shop.StepMain | code_examples/thr/sleeping_barber.c:57-85 | likewise for the main thread, which sets the closing flag and wakes the barber |
| SleepingBarber.Shop.Run | code_examples/thr/sleeping_barber.c:57-133 | any schedule is a run of the protocol and ends in its invariant |
| RingBuffer.Add | code_examples/thr/producer_consumer.c:128-140 | adding appends to what the ring holds, wherever head and tail stand, and sets the full and empty flags right |
| RingBuffer.Remove | code_examples/thr/producer_consumer.c:143-157 | removing takes the oldest item, wherever head and tail stand |
| RingBuffer.Create | code_examples/thr/producer_consumer.c:160-175 | a new ring of any capacity of at least 1 is well formed and holds nothing |
| RingBuffer.Queue.AddToQueue | code_examples/thr/producer_consumer.c:128-140 | on the buffer array: the contents are the old contents and the new item |
| RingBuffer.Queue.RemoveFromQueue | code_examples/thr/producer_consumer.c:143-157 | on the buffer array: the item returned followed by the contents is the old contents |
| ProducerConsumer.ConsumedInOrder | code_examples/thr/producer_consumer.c:73-124 | in every interleaving what was consumed, followed by what is in the buffer, is what was produced |
| ProducerConsumer.AccessIsSafe | code_examples/thr/producer_consumer.c:73-124 | nothing is added to a full buffer or removed from an empty one, and both only under the mutex |
| ProducerConsumer.NoLostWakeup | code_examples/thr/producer_consumer.c:80-120 | although signals follow the unlock, a thread is asleep on a true condition only while the signal is still to come |
| ProducerConsumer.NoDeadlock | code_examples/thr/producer_consumer.c:73-124 | no reachable state is stuck before both threads are done, without help from spurious wakeups |
| ProducerConsumer.EverythingConsumed | code_examples/thr/producer_consumer.c:73-124 | when both threads are done all items were consumed in order and the buffer is empty |
| ProducerConsumer.EveryRunEnds | code_examples/thr/producer_consumer.c:73-124 | without spurious wakeups every run over M items is at most 18 M + 12 steps long, and one that cannot go on has consumed them all in order |
| ProducerConsumer.Threads.StepProducer | code_examples/thr/producer_consumer.c:73-97 | each statement of the producer on the shared queue takes exactly its step of the protocol |
| ProducerConsumer.Threads.StepConsumer | code_examples/thr/producer_consumer.c:100-124 | likewise for the consumer |
| ProducerConsumer.Threads.Run | code_examples/thr/producer_consumer.c:73-124 | under any schedule the threads on the array queue make a run of the protocol and what they consumed is a prefix of the items |
| SharedMemory.OutputIsPrefix | code_examples/shm/reader_writer_systemV/svshm_xfr_writer.c:68-86 | for any input and any chunking the output is a prefix of the input, and the turn is in exactly one of the two semaphores and two processes |
| SharedMemory.TransferComplete | code_examples/shm/reader_writer_systemV/svshm_xfr_reader.c:51-76 | when the reader is done its output is the input, and both sides report the same bytes and transfers |
| SharedMemory.RemovedAfterDetach | code_examples/shm/reader_writer_systemV/svshm_xfr_writer.c:87-104 | the segment and the semaphores are removed only after the reader has detached and used them for the last time |
| SharedMemory.ThereWhenUsed | code_examples/shm/reader_writer_systemV/svshm_xfr_writer.c:68-104 | neither process touches the segment without having it mapped, or a semaphore or the segment after its removal |
| SharedMemory.NothingLeftBehind | code_examples/shm/reader_writer_systemV/svshm_xfr_writer.c:92-104 | a writer that has ended has removed the semaphores and the segment, and neither process has the segment mapped |
| SharedMemory.EveryRunCompletes | code_examples/shm/reader_writer_systemV/svshm_xfr_writer.c:44-106 | every run is at most 20 n + 34 steps long, and one that cannot go on has transferred all n bytes, ended both processes and left neither semaphores nor segment behind |
| SharedMemory.Transfer.StepWriter | code_examples/shm/reader_writer_systemV/svshm_xfr_writer.c:44-106 | each statement of the writer on the shared segment takes exactly its step of the protocol, the removal of both objects included |
| SharedMemory.Transfer.StepReader | code_examples/shm/reader_writer_systemV/svshm_xfr_reader.c:36-77 | likewise for the reader |
| SharedMemory.Transfer.ReadChunk | code_examples/shm/reader_writer_systemV/svshm_xfr_writer.c:74-76 | a read of n bytes puts the next n bytes of the input into the segment |
| SharedMemory.Transfer.Run | code_examples/shm/reader_writer_systemV/svshm_xfr_writer.c:44-106 | under any schedule and any sizes of reads the two processes on the segment make a run of the protocol and the output is a prefix of the input |
| WorkPipe.WorkConserved | code_examples/shackleford/src/sync/mutex/05-pc_cv.c:82-99 | for a pipe of any capacity: what was consumed plus what is in the pipe is the work written, the pipe holds the last units written, each unit is written at most once and by its producer, and with the mutex free avail is the number of units in the pipe |
| WorkPipe.AllWorkWritten | code_examples/shackleford/src/sync/mutex/05-pc_cv.c:82-99 | with room for N units, the work written is that of every producer that has tried |
| WorkPipe.NoLostWakeup | code_examples/shackleford/src/sync/mutex/05-pc_cv.c:140-176 | for a pipe of any capacity, the consumer is asleep with work available only while a producer still owes its signal |
| WorkPipe.NeverReadsEmptyPipe | code_examples/shackleford/src/sync/mutex/05-pc_cv.c:157-169 | for a pipe of any capacity, the consumer never reads an empty pipe, so the failed read that the unsigned ret would count as a unit does not occur |
| WorkPipe.FinishedMeansEverything | code_examples/shackleford/src/sync/mutex/05-pc_cv.c:140-176 | the consumer stops only with no producers, no work, an empty pipe and the total 0 + 1 + ... + (N - 1) |
| WorkPipe.EveryRunFinishes | code_examples/shackleford/src/sync/mutex/05-pc_cv.c:70-176 | with room for N units every run is at most 40 N + 18 steps long and ends with that total |
| WorkPipe.NeverStuckExactly | code_examples/shackleford/src/sync/mutex/05-pc_cv.c:82-176 | no interleaving leaves the consumer waiting for ever if and only if there is a producer and the pipe holds a unit from each |
| WorkPipe.Shared.StepProducer | code_examples/shackleford/src/sync/mutex/05-pc_cv.c:70-100 | each statement of a producer takes exactly its step of the protocol |
| WorkPipe.Shared.StepConsumer | code_examples/shackleford/src/sync/mutex/05-pc_cv.c:140-176 | likewise for the consumer, a failed read that counts the previous unit again included |
| WorkPipe.Shared.Run | code_examples/shackleford/src/sync/mutex/05-pc_cv.c:70-176 | any schedule is a run of the protocol and ends in its invariant |
| SignalChain.BlockedMeansSomeoneWillSignal | code_examples/shackleford/src/sync/mutex/03-simple_cv.c:30-60 | once the one signal is out, whenever a waiter is blocked an awake waiter exists that has yet to signal |
| SignalChain.NobodyLeftBehind | code_examples/shackleford/src/sync/mutex/03-simple_cv.c:22-63 | for any number of waiters no run gets stuck while a thread, the signaller or a waiter, has not finished |
| SignalChain.EverybodyFinishes | code_examples/shackleford/src/sync/mutex/03-simple_cv.c:22-63 | each run is at most 9 n + 4 steps long, and one that cannot go on has finished every thread |
| SignalChain.Shared.StepWaiter | code_examples/shackleford/src/sync/mutex/03-simple_cv.c:41-63 | each statement of a waiter takes exactly its step of the protocol |
| SignalChain.Shared.StepSignaller | code_examples/shackleford/src/sync/mutex/03-simple_cv.c:22-39 | likewise for the signaller |
| SignalChain.Shared.Run | code_examples/shackleford/src/sync/mutex/03-simple_cv.c:22-63 | any schedule, with any choice of whom a signal reaches, is a run of the protocol and ends in its invariant |
| Pipeline.Process.ExecuteTasks | code_examples/shackleford/src/projects/pssh/pssh_v2/pssh.c:322-372 | for any number of tasks: the first reads the infile or the shell's own input, the last writes the outfile or the shell's own output, pipes join each task to the next, every other descriptor of every task is the shell's own, the shell's table is at the end what it was at the start, and each pipe has one writer and one reader |
| Pipeline.OneWriterOneReader | code_examples/shackleford/src/projects/pssh/pssh_v2/pssh.c:339-369 | among all descriptors of all the tables the tasks exec with, pipe k is open for writing only as the stdout of task k and for reading only as the stdin of task k + 1, and there it is |
| Pipeline.Process.StartTask | code_examples/shackleford/src/projects/pssh/pssh_v2/pssh.c:341-355 | one turn of the loop: the child's table, and the one descriptor the shell keeps for the next turn |
| Pipeline.Process.StartLast | code_examples/shackleford/src/projects/pssh/pssh_v2/pssh.c:357-369 | the last task writes to the outfile or the terminal, and no extra descriptor remains open |
| Pipeline.Process.Run | code_examples/shackleford/src/projects/pssh/pssh_v2/pssh.c:122-131 | the program starts with its two ends on 0 and 1 and both originals closed, whatever descriptors they were |
| Pipeline.Process.Redirect | code_examples/shackleford/src/projects/pssh/pssh_v2/pssh.c:100-106 | the old descriptor refers to the new file and the new descriptor is gone, or nothing changes when they are the same |
| Pipeline.Process.CloseSafe | code_examples/shackleford/src/projects/pssh/pssh_v2/pssh.c:111-117 | closes the descriptor unless it is 0 or 1 |
| JobControl.TerminalIsOwned | code_examples/shackleford/src/projects/pssh/pssh_v2/pssh.c:232-315 | after any sequence of launches into a free slot, fg, bg, stops, continues and exits the foreground group is the shell's or that of a job with status FG and an unreaped process |
| JobControl.LaunchKeepsOwnershipExactly | code_examples/shackleford/src/projects/pssh/pssh_v2/pssh.c:359-371 | a launch keeps that property if and only if it is in the background or a slot is free |
| JobControl.FullTableLosesTheTerminal | code_examples/shackleford/src/projects/pssh/pssh_v2/pssh.c:359-371 | whatever the number of slots, a run that fills the table with background jobs, after which a foreground launch leaves the terminal with a group no job records |
| JobControl.OneReportPerBurst | code_examples/shackleford/src/projects/pssh/pssh_v2/pssh.c:267-281 | however many processes of a job stop with no continue, fg or end of the job between, exactly one suspended report is made, and none if the job was stopped already |
| JobControl.ProcessesConserved | code_examples/shackleford/src/projects/pssh/pssh_v2/pssh.c:264-313 | after any sequence of events each unreaped child is in exactly one job, nobody else is in any, and exactly the free slots are empty |
| JobControl.DeletedWithLastPid | code_examples/shackleford/src/projects/pssh/pssh_v2/pssh.c:295-312 | a job leaves the table exactly when its last unreaped process exits |
| JobControl.FgTakesTheTerminal | code_examples/shackleford/src/projects/pssh/pssh_v2/builtin.c:73-76 | fg on a used slot gives the terminal to that job's group and marks the job FG, and changes nothing else |
| JobControl.TerminalMovesOnlyThen | code_examples/shackleford/src/projects/pssh/pssh_v2/pssh.c:232-372 | the foreground group changes only at a foreground launch, at fg, at the first stop of a job and when the last process of an FG job ends |
| JobControl.StopHeard | code_examples/shackleford/src/projects/pssh/pssh_v2/pssh.c:267-281 | the first process of a job to stop marks it STOPPED, gives the terminal back to the shell and is reported; further ones change nothing |
| JobControl.ContinueHeard | code_examples/shackleford/src/projects/pssh/pssh_v2/pssh.c:283-293 | a stopped job that goes on becomes BG and is reported, and keeps off the terminal; any other is left as it is |
| JobControl.ExitHeard | code_examples/shackleford/src/projects/pssh/pssh_v2/pssh.c:295-312 | a process that ends leaves its own job and no other; the last one frees the slot, and gives the terminal back if the job was FG or is reported if it was not |
| JobControl.LaunchRecorded | code_examples/shackleford/src/projects/pssh/pssh_v2/pssh.c:359-371 | a launch takes the lowest free slot under the group of its first process, and the terminal unless in the background |
| JobControl.JobsComeFromLaunches | code_examples/shackleford/src/projects/pssh/pssh_v2/jobs.c:28-60 | in every reachable state each job in the table is one that was launched, with its own line, the group of its own first process, and its own processes less the reaped ones |
| JobControl.Shell.LaunchJob | code_examples/shackleford/src/projects/pssh/pssh_v2/pssh.c:359-371 | the terminal and the table after a launch are those of the state machine |
| JobControl.Shell.BuiltinFg | code_examples/shackleford/src/projects/pssh/pssh_v2/builtin.c:60-80 | for any number: on a used slot the job becomes FG, the terminal goes to its group and SIGCONT is sent to that group; a free slot and a number outside the table change nothing |
| JobControl.Shell.BuiltinBg | code_examples/shackleford/src/projects/pssh/pssh_v2/builtin.c:38-57 | for any number: SIGCONT goes to the group of a used slot and nothing else changes, since the status follows when the handler hears of it |
| JobControl.Shell.HearStopped | code_examples/shackleford/src/projects/pssh/pssh_v2/pssh.c:267-281 | the first stop takes the terminal back and reports; later ones change nothing |
| JobControl.Shell.HearContinued | code_examples/shackleford/src/projects/pssh/pssh_v2/pssh.c:283-293 | a stopped job goes to the background with a report; any other is left alone |
| JobControl.Shell.HearExited | code_examples/shackleford/src/projects/pssh/pssh_v2/pssh.c:295-313 | the process is removed, and with the last one the job; a foreground job gives the terminal back |
| JobControl.Shell.Handle | code_examples/shackleford/src/projects/pssh/pssh_v2/pssh.c:243-315 | one turn of the handler takes exactly the step of the state machine for that wait status |
| JobControl.Shell.Run | code_examples/shackleford/src/projects/pssh/pssh_v2/pssh.c:232-372 | over any sequence of launches into a free slot, commands and wait statuses the shell, on its job table, ends in the state of the state machine and its invariant |
| JobTable.AddKeeps | code_examples/shackleford/src/projects/pssh/pssh_v2/jobs.c:28-60 | adding a job of new processes to a free slot keeps the table exact: every unreaped process listed once, nobody else |
| JobTable.ReapKeeps | code_examples/shackleford/src/projects/pssh/pssh_v2/jobs.c:93-130 | so does removing a reaped process, with the job deleted exactly when it was the last |
| JobTable.NumberIsTheJob | code_examples/shackleford/src/projects/pssh/pssh_v2/jobs.c:65-75 | the number found for an unreaped process is the one job that lists it |
| JobTable.Table.Add | code_examples/shackleford/src/projects/pssh/project_2/project2.tex:449-453 | a new job takes the lowest free number; a full table is left as it was |
| JobTable.Table.GetNumber | code_examples/shackleford/src/projects/pssh/pssh_v2/jobs.c:65-75 | the lowest job that lists the process, or -1 |
| JobTable.Table.RemovePid | code_examples/shackleford/src/projects/pssh/pssh_v2/jobs.c:93-105 | the process is zeroed in its job, and nothing else changes |
| JobTable.Table.IsDone | code_examples/shackleford/src/projects/pssh/pssh_v2/jobs.c:112-121 | true exactly when every process of the job has been removed |
| JobTable.Table.Delete | code_examples/shackleford/src/projects/pssh/pssh_v2/jobs.c:124-130 | the slot is free and empty, and nothing else changes |
| JobTable.Table.SetStatus | code_examples/shackleford/src/projects/pssh/pssh_v2/jobs.c:151-157 | the status of a used slot, and nothing else |
| JobTable.Table.GetStatus | code_examples/shackleford/src/projects/pssh/pssh_v2/jobs.c:160-166 | the status of a used slot, TERM for a free one |
| JobTable.StatusReadBack | code_examples/shackleford/src/projects/pssh/pssh_v2/jobs.c:151-166 | job_status reads back what job_set_status wrote, TERM after job_delete, and is unaffected by either on any other slot and by the removal of a pid |
| JobTable.StatusAfterAdd | code_examples/shackleford/src/projects/pssh/pssh_v2/jobs.c:28-60 | a new job reads as BG or FG, and no other status changes |
| Primes.IsPrimeTrial | code_examples/shackleford/src/signals/sol/primes.c:30-51 | for every unsigned number, either it is told prime exactly when it is, or i * i overflows; the latter exactly on the odd numbers from 46339 squared on that have no odd divisor up to 46339 |
| Primes.SquaresOverflow | code_examples/shackleford/src/signals/sol/primes.c:38-48 | on the square of any prime from 46341 on that is an unsigned int, which is composite, i * i overflows |
| Primes.OverflowHappens | code_examples/shackleford/src/signals/sol/primes.c:38-48 | a number on which it overflows: 46349 squared |
| Primes.TrialDivisionSuffices | code_examples/shackleford/src/signals/sol/primes.c:38-48 | an odd number with no odd divisor up to its square root is prime |
| Primes.PrimesBelowExact | code_examples/shackleford/src/signals/sol/primes.c:82-89 | the list kept by the loop is strictly increasing and holds exactly the primes below the next candidate |
| Primes.Search.TryNext | code_examples/shackleford/src/signals/sol/primes.c:82-89 | whenever the signal is unmasked the array holds precisely the primes below try |
| Primes.Search.Run | code_examples/shackleford/src/signals/sol/primes.c:82-89 | unless it stops early the loop fills the array with the first primes, none missing |
| Binomial.ComputesExactly | code_examples/shackleford/src/C/function_pointers/function_pointers.c:39-47 | the program on 32-bit ints, for all naturals: it returns the entry of Pascal's triangle if k times that entry is an int (k up to n) or k exceeds n by at most 30 (k above n), and overflows otherwise |
| Binomial.OverflowsExactly | code_examples/shackleford/src/C/function_pointers/function_pointers.c:39-47 | some product in the recursion is no int exactly when that condition fails |
| Binomial.OverflowOnSmallResults | code_examples/shackleford/src/C/function_pointers/function_pointers.c:39-47 | 30 choose 15 and 0 choose 31 overflow although 155117520 and 0 are ints |
| Binomial.IsBinomial | code_examples/shackleford/src/C/function_pointers/function_pointers.c:39-47 | on unbounded integers, for all naturals the recursion equals the entry of Pascal's triangle, and 0 above the diagonal |
| Binomial.DivisionIsExact | code_examples/shackleford/src/C/function_pointers/function_pointers.c:39-47 | on unbounded integers, every division by b in the recursion is exact, for every integer a |
| Binomial.PascalRule | code_examples/shackleford/src/C/function_pointers/function_pointers.c:39-47 | on unbounded integers, the results satisfy Pascal's rule, for every integer a |
| Binomial.Absorption | code_examples/shackleford/src/C/function_pointers/function_pointers.c:39-47 | on unbounded integers, multiplying a result by b gives back a times the smaller result: nothing is lost to rounding |

## Left out

- Parser.ParseUnitAt: when the argument count and the tokens disagree, or a scan would pass the end of a unit, the program writes or reads outside its array; the outcome is then Undefined (Broken for the line) and what memory holds afterwards is not modelled.
- Parser.CutUnary: strndup and strdup are copies as values; allocation, free and their failures are not modelled.
- Parser.Record.Add: a slot of the task array is its argv, None while it is still zeroed; cmd is argv[0] and not stored twice.
- Parser.ParseCommandLineText: argtok and has_trailing read the byte in front of the buffer; the model takes a buffer that has one, with any value, and says what depends on it. Space characters are those of the C locale.
- RoundTrip.ParseUndoesShow: prints single spaces and input before output redirection. Other spacing is the subject of Spacing.BlanksAroundMarks and Spacing.SpacesExactly; lines of every other form, of LineLaws.AcceptsExactly.
- Spacing.SpacesExactly: a quoted phrase behind an even number of spaces is covered by Spacing.CountArgsExactly and Spacing.TokensExactly only, as its own spaces are then counted as if they stood outside.
- Primes.IsPrimeTrial: signed overflow is an outcome of its own; what the compiled program does after it is not modelled, nor is the unsigned counter wrapping around at the end of the enumeration.
- Primes.Search.TryNext: SIGALRM, the jump out of the handler and the report are represented by stopping between two turns, with try preserved.
- Binomial.ComputesExactly: an overflow is an outcome of its own; k is natural, as the recursion does not end for a negative one.
- DiningPhilosophers.EverybodyCanLeave: a run to the end always exists, but not every fair run ends, because two philosophers may give their chopsticks back and retry for ever.
- DiningPhilosophers.FinalMeals: a table of one philosopher, who would lock one mutex twice, is not modelled.
- Barrier.EveryRunEnds: is about runs without spurious wakeups, as all theorems about the barrier but the exact condition for separation.
- ProducerConsumer.EveryRunEnds: is about runs without spurious wakeups, which could keep a waiting thread testing for ever.
- WorkCrew.NoDeadlock: the polling loop of the contractor may turn for ever under an unfair schedule; a run to the exit always exists, and from the break on every run is bounded.
- WorkCrew.EveryItemOnce: the result of pthread_join, which the program never initialises, is not modelled, nor is the cancellation handler's output.
- WorkPipe.FinishedMeansEverything: a unit of work is one value in the pipe and its sum is unbounded; a write is all or nothing. The unit the consumer starts with is any value.
- SharedMemory.TransferComplete: byte and transfer counters are unbounded, and SEM_UNDO and semaphore creation order are not modelled.
- JobControl.TerminalIsOwned: a child that ends before its job is in the table, a pid the table does not know and a launch into a full table are not part of the runs; the last is treated by LaunchKeepsOwnershipExactly.
- JobControl.Shell.BuiltinFg: what the out-of-range read of job_exists finds for a number the table does not have, and what the program does with it, is not modelled. The SIGCONT that fg and bg send is heard of as a continue event or not at all.
- Pipeline.Process.Run: run never returns in a child; the table it execs with is its result.
- Pipeline.Process.ExecuteTasks: process groups, waiting and the command lookup in front of it are not part of this module.
- The semaphore barrier (code_examples/thr/barrier_synchronization_with_semaphores.c): a fast thread can take a token meant for the previous round, so rounds are not separated over several iterations.
- The copies of these programs under code_examples/threads and the older versions in code_examples/thr_sync.
- Sockets, FIFOs, message queues, signal and process demonstrations, floating-point dot products, assembly and LaTeX files: I/O plumbing or easy members.
- Prompt, banner, PATH lookup, kill, jobs and which of the shell.
