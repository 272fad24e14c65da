# Verified model of the mumu logging and configuration framework

This project models four parts of the framework in Dafny and proves what they are for.

* **The log pattern compiler** (`Pattern`, `PatternGrammar`, `Formatter`). `LogFormatter.Init` is the two-pass
  scanner with its loops, its pending buffer and its mode flag. It is proved against recursive functions on the
  pattern, and those are proved lossless, inverse to printing, equal to a grammar, and bounded in steps.
* **Loggers and their live reconfiguration** (`LogTypes`, `Defines`, `Loggers`, `Reconfigure`). Loggers, appenders
  and the manager are classes. The listener on `logs` patches them from the difference of two values, and after any
  sequence of values the loggers are in a state that can be read off the values alone.
* **The configuration engine** (`Names`, `Flatten`, `ConfigVars`, `Registry`, `SetValue`, `ListenerChains`).
  Flattening a tree, looking variables up, loading, and announcing changes to listeners; the last two modules have
  many threads.
* **Concurrency** (`Delivery` and the five `Delivery…` modules above it, `LockOrder`, `LockGuards`, `CasLock`,
  `ThreadStart`).
  Each is a step system with any number of threads. A schedule is a sequence of thread numbers; the theorems hold
  for every schedule, that is for every interleaving.

Where threads interleave the source's objects are values in a state, because the steps between which others may
interfere lie inside the methods. Everything else that changes fields in the source is a class here.

## How the step systems are cut into steps

A step is everything a thread does between two points at which another thread can matter: taking or giving back a
lock, a load, a store, one written item, one callback. `Next` (or `Step`) gives the step of one thread, or None when
the thread is done or waits. In `Delivery` every step is described by its effect on one logger and one appender, each
kind of step keeps one lock rule (`NextLockRule`), and the invariants of the other modules are kept by the same
scheme: one lemma per group of program counters, one lemma that applies the effect.

`LockOrder` covers all operations, but only their locks and what they access under them (`LockGuards`); `Delivery`
covers what is written, for logging and for replacing formatters. `DeliveryEnds` and `CasLock` also give a measure that every step that is made lowers; with the
lemma that some thread can move while one is not done, every run can be continued to its end.

## Results that are negative or differ from the documentation

* `%%` is not an escape: the second percent sign starts a directive (log.cc lines 526-531). `PatternGrammar.Canonical`
  says so: a percent sign in literal text must be followed by another one or by a directive.
* An unclosed brace costs one percent sign of the text (`Pattern.Lossless`) and can make the scan quadratic: n*n/4
  inner-loop iterations, rounded down, is the bound (`PatternGrammar.StepBound`), and it is reached at every length
  (`PatternGrammar.BoundIsReached`).
* The error flag and the error placeholders among the items differ: literal text can look like a placeholder
  (`PatternGrammar.LiteralMayLookLikeError`). `PatternGrammar.PlaceholderIffError` says exactly when a placeholder is
  built: for a pattern outside the grammar, or one that has `<<pattern_error>>` for a literal of its own. For a
  pattern that does not contain this text the two agree (`PatternGrammar.PlaceholderMeansError`).
* A guard's destructor unlocks unconditionally, so a guard that was unlocked before may open another thread's lock.
  `CasLock.ExclusionIff`: guards exclude each other in every interleaving if and only if every section ends with its
  guard locked or at most one thread has sections; `CasLock.UnlockedGuardBreaks` is the smallest failing run.
* Concurrent setters and listener edits can break what a listener gets to hear, in two ways: two setters announce from
  the same old value (`ListenerChains.SettersMayShareOldValue`), or a listener is registered between an announcement
  and its store and misses the change (`ListenerChains.LateListenerMisses`).
  `ListenerChains.FaithfulIffUndisturbed` is the exact condition, for every run: a listener's calls are, operation by
  operation, the stores since its registration, with at most one still to come, if and only if no step tells it
  between an announcement to it and that change's store and no change is stored that was announced before it was
  registered. It is stated by operation because values can coincide: `ListenerChains.EqualValuesHideInterference` is a
  run in which two setters write the same value and the interference leaves the listener's chain of values whole.
  What a caller can check beforehand is enough: only one thread sets the variable or adds listeners
  (`ListenerChains.OneWriterIsEnough`).
* An appender's level is printed but never read back; `Defines.RoundTripIffNormal` says exactly which definitions
  survive.
* `ConfigVar::fromString` returns false also when it succeeds.

## Model

| member | source | states |
|---|---|---|
| Pattern.Munch | mumu/log.cc:533-579 | A directive always advances past its percent sign, an unclosed one by exactly that, so the outer loop makes progress although it sets `i = n - 1`. |
| PatternGrammar.NameIsLetters | mumu/log.cc:540-546 | A directive's name is exactly the letters after the percent sign, if anything but a brace follows them. |
| PatternGrammar.BraceInName | mumu/log.cc:541-542 | A closing brace after the letters becomes part of the name, and every pattern that starts so is rejected. |
| PatternGrammar.UnclosedKeepsLiteral | mumu/log.cc:581-599 | An unclosed directive is reported before the literal text around it, which stays one piece and loses only the percent sign. |
| Pattern.BadAtIncreasing | mumu/log.cc:581-585 | The places where the scanner meets an unclosed brace are met once each, left to right. |
| Pattern.BadAtUnclosed | mumu/log.cc:581-585 | Each such place really is a percent sign, a name and a brace that nothing closes in the rest of the pattern. |
| Pattern.BadAtCount | mumu/log.cc:581-585 | There are as many of them as error tokens. |
| Pattern.SourceOfScan | mumu/log.cc:519-599 | From any position and any pending text, printing the tokens gives the pending text and then the rest of the pattern without the lost percent signs. |
| Pattern.Lossless | mumu/log.cc:519-599 | Tokenizing is lossless for every pattern: the tokens print back to the pattern with exactly one percent sign removed per unclosed directive, and to the pattern itself when there is none. |
| PatternGrammar.ScanOfSource | mumu/log.cc:519-599 | Wherever the text of canonical tokens stands at the end of a pattern, scanning from there reads exactly those tokens. |
| PatternGrammar.ScanIsCanonical | mumu/log.cc:526-579 | A scan without errors yields maximal literals, maximal names, closed formats and table names only, also across `%%` and the pending buffer. |
| PatternGrammar.ParseOfPrint | mumu/log.cc:519-650 | Compiling the text of a canonical token list yields exactly that list and no error. |
| PatternGrammar.PrintOfParse | mumu/log.cc:519-650 | Every pattern that compiles is the text of its tokens, and they are canonical. |
| PatternGrammar.AcceptsIffGrammar | mumu/log.cc:526-646 | A pattern compiles without error if and only if it belongs to the grammar, and it has one reading. |
| PatternGrammar.PlaceholderIffError | mumu/log.cc:584-646 | A placeholder is among the items if and only if the pattern is outside the grammar or is the text of a canonical list that has the error text for a literal. |
| PatternGrammar.ShowsOnlyErrorText | mumu/log.cc:584-646 | Of the placeholder texts only `<<pattern_error>>` can be a literal of an accepted pattern: the other one has a lone percent sign. |
| PatternGrammar.PlaceholderMeansError | mumu/log.cc:584-646 | For a pattern that does not contain the error text the error flag stays false if and only if no placeholder item is built. |
| PatternGrammar.LiteralMayLookLikeError | mumu/log.cc:584-630 | A concrete accepted pattern whose item equals the one built for an unclosed brace. |
| PatternGrammar.StepsBelowQuarter | mumu/log.cc:540-573 | From every position the inner loop runs at most a quarter of the square of what is left: an unclosed directive is always followed by a literal position. |
| PatternGrammar.StepsBelowLength | mumu/log.cc:540-573 | With no unclosed brace ahead it runs at most once per remaining character. |
| PatternGrammar.StepBound | mumu/log.cc:519-595 | Inner-loop iterations: at most the length of the pattern if no brace is left open, and never more than n*n/4. |
| PatternGrammar.BoundIsReached | mumu/log.cc:519-595 | At every length n there is a pattern that takes exactly n*n/4 iterations, percent signs and braces in turn. |
| Formatter.ReadDirective | mumu/log.cc:533-573 | The inner loop with its mode flag reads the longest name and the text up to the first closing brace, and reports an unclosed one. |
| PatternGrammar.KindOfName | mumu/log.cc:600-620 | The kind of item for each of the twelve names, with the format given, and the default date for an empty date format. |
| Formatter.LogFormatter.constructor | mumu/log.cc:513-651 | The items of a new formatter are, one by one, what the tokens of the pattern mean by name; for the text of any canonical list they are those of the list and there is no error; the flag is set exactly for patterns outside the grammar. |
| Formatter.DirectiveItems | mumu/log.cc:600-646 | For each of the twelve names, a percent sign and the name compile to one item of its kind. |
| Formatter.FormattedItems | mumu/log.cc:600-646 | The same with a format in braces, which the item gets. |
| Formatter.OneLiteral | mumu/log.cc:519-630 | Text without a percent sign compiles to itself. |
| Formatter.LogFormatter.Tokenize | mumu/log.cc:515-599 | The first pass yields the tokens of the reference scan, flags exactly the unclosed ones, and takes the counted steps. |
| Formatter.LogFormatter.BuildItems | mumu/log.cc:600-650 | The second pass appends one item per entry, in order, that is what the token means by name, and sets the flag exactly for unknown names. |
| Formatter.LogFormatter.Init | mumu/log.cc:513-651 | Compiling appends what the tokens of the pattern mean by name, keeps earlier items, sets the flag exactly for rejected patterns, within the step bounds. |
| Formatter.LogFormatter.Format | mumu/log.cc:497-504 | Writes every item's output once, in order, after what the stream held. |
| Defines.ReadAppenders | mumu/log.cc:752-787 | The loop keeps the good entries in order, skips incomplete or unknown ones, and throws as the first throwing entry does. |
| Defines.FindIsFirst | mumu/log.cc:741-771 | Of several members with one key the first counts. |
| Defines.AppenderThrowsIff | mumu/log.cc:755-778 | Exactly which appender entries throw: bare texts, and those with a type, file or formatter in use that is no text. |
| Defines.AppenderSkippedIff | mumu/log.cc:755-783 | Exactly which entries are skipped: no type, another type, or a file appender without a file. |
| Defines.AppenderKept | mumu/log.cc:762-785 | What is kept of the others: type 1 with the file or type 2, and the formatter or an empty one. |
| Defines.ParseThrowsIff | mumu/log.cc:738-789 | Exactly which definitions throw: bare texts, those without a name, with a name, level or formatter that is no text, or with a throwing entry. |
| Defines.PrintedAppender | mumu/log.cc:805-822 | An appender is printed with its type, its file if it has type 1, and its level unless that is unknown. |
| Defines.WriteDefine | mumu/log.cc:795-826 | The printer's loop builds the printed tree, leaving out an unknown level, an empty formatter and an empty list. |
| Defines.ParsedIsNormal | mumu/log.cc:738-789 | Whatever parses has appenders of type 1 or 2 only, no appender level, and files only on type 1. |
| Defines.LevelSurvives | mumu/log.cc:34-75 | Level names read back to the level they print, the unknown one included. |
| LogTypes.LevelNames | mumu/log.cc:34-75 | The weight of each level, the name it prints, and the two spellings it is read from; any other text is the unknown level. |
| Defines.ParseOfPrint | mumu/log.cc:735-827 | Printing and parsing any definition keeps name, level and formatter, and each appender stripped to what is read back. |
| Defines.RoundTripIffNormal | mumu/log.cc:735-827 | A definition survives printing and parsing if and only if it is in normal form. |
| Defines.ParsePrintParse | mumu/log.cc:735-827 | Parsing, printing and parsing again equals parsing. |
| Loggers.LogAppender.constructor | mumu/log.cc:399-403 | A new appender lets DEBUG through, has no formatter of its own, and has written nothing. |
| Loggers.LogAppender.Log | mumu/log.cc:404-417 | One whole record if the level passes, else nothing; the last reopen time never decreases, k reopens need 3k time units, and after a write to a file the event is less than 3 after it. |
| Loggers.LogAppender.SetFormatter | mumu/log.cc:389-398 | The formatter is the appender's own exactly when it is not null. |
| Loggers.Logger.constructor | mumu/log.cc:252-257 | Level DEBUG, the default pattern, no appenders, no root. |
| Loggers.Logger.SetFormatter | mumu/log.cc:280-291 | The logger and all its appenders without their own formatter follow; the others keep theirs. |
| Loggers.Logger.SetFormatterString | mumu/log.cc:299-310 | A pattern with an error changes nothing at all; any other acts like SetFormatter. |
| Loggers.Logger.AddAppender | mumu/log.cc:355-364 | Appends to the list; a bare appender is lent the logger's formatter. |
| Loggers.Logger.DelAppender | mumu/log.cc:365-376 | Removes the first occurrence only, and keeps the order of the rest. |
| Loggers.Logger.ClearAppender | mumu/log.cc:378-382 | Leaves no appender. |
| Loggers.LoggerManager.constructor | mumu/log.cc:653-662 | Only the root exists, with one standard output that has the default pattern. |
| Loggers.LoggerManager.GetLogger | mumu/log.cc:663-678 | Always the same object per name, created with the root as fallback; no observable logger state changes, and loggers keep separate appenders. |
| Reconfigure.NewAppender | mumu/log.cc:860-877 | The appender a definition asks for; an invalid formatter is dropped. |
| Reconfigure.MadeInOrder | mumu/log.cc:859-879 | For any list the appenders are those of the definitions of type 1 or 2, in order and no others, each with its file if of type 1, its level, and its own pattern if non-empty and valid, else the logger's. |
| Reconfigure.AddAppenders | mumu/log.cc:859-879 | Exactly the appenders of known type, in order, each with file, level and own or lent formatter as its definition asks. |
| Reconfigure.PatchLogger | mumu/log.cc:851-879 | The logger has the definition's level and its pattern if non-empty and valid; for definitions all of type 1 or 2 there is one appender each, with its file, level and own or lent pattern; and every new appender writes the items of its pattern. |
| Reconfigure.PatchNamed | mumu/log.cc:842-879 | The named logger is patched and no other logger changes. |
| Reconfigure.DisableNamed | mumu/log.cc:886-888 | Level 0 and no appenders for that name; no other logger changes. |
| Reconfigure.VisitNew | mumu/log.cc:837-880 | One round of the first loop: new and edited definitions are applied, equal ones skipped. |
| Reconfigure.VisitOld | mumu/log.cc:882-890 | One round of the second loop: a definition that is gone switches its logger off. |
| Reconfigure.VisitAllNew | mumu/log.cc:837-880 | The first loop over the whole set acts on every name at once, whatever the iteration order. |
| Reconfigure.VisitAllOld | mumu/log.cc:882-890 | The second loop likewise. |
| Reconfigure.OnLogsChanged | mumu/log.cc:834-891 | For every name at once, the listener changes the logger as the difference of the two values says. |
| Reconfigure.TargetStep | mumu/log.cc:834-891 | The state a history of values calls for moves to that of the longer history by just this difference. |
| Reconfigure.TargetMeans | mumu/log.cc:834-891 | The target, case by case: a defined name has the level and fitting appenders, a once-defined one level 0 and none, another is untouched, and the pattern is the valid one given last, or the default. |
| Reconfigure.LogsVar.constructor | mumu/log.cc:829-834 | Before any configuration all loggers are in the target state of the empty set. |
| Reconfigure.LogsVar.SetValue | mumu/log.cc:834-891 | After every sequence of values: defined names have the define's level and, in order, an appender with the right file, level and pattern for each definition of type 1 or 2; once-defined names have level 0 and none; others are untouched, and each formatter is the last valid one ever applied. |
| Delivery.NextLockRule | mumu/log.cc:258-291 | A step takes only free locks and gives back only its own, as its program counter says. |
| Delivery.AfterSafe | mumu/log.cc:258-291 | Every step keeps each lock held by exactly the thread whose position in the code holds it. |
| DeliveryRecords.RecordsAreWhole | mumu/log.cc:404-417 | In every interleaving each stream is complete records, each item by item by one formatter, plus at most the partial record of the lock's holder, even while formatters are replaced; which formatter that is, `DeliveryFormatters` says. |
| DeliveryRecords.FreeStreamIsWhole | mumu/log.cc:404-417 | A stream whose appender is not locked is exactly its completed records. |
| DeliveryFormatters.BareAppendersFollow | mumu/log.cc:280-291 | In every interleaving, whenever a logger is free each of its appenders without its own formatter has exactly the logger's; while it is being set, the appenders already served have the new one. |
| DeliveryFormatters.OwnFormatterStays | mumu/log.cc:286-290 | An appender's own formatter changes only by a setFormatter on the appender, only to what that sets, and stays its own. |
| DeliveryFormatters.SetFormatterSets | mumu/log.cc:280-398 | A logger's formatter becomes what its setFormatter is given and changes by nothing else, and an appender gets one of its own only by its own setFormatter. |
| DeliveryOrder.RunsAreOrdered | mumu/log.cc:258-276 | At every moment each unshared appender has received exactly the accepted events due to it, in lock order. |
| DeliveryOrder.FilterSelects | mumu/log.cc:404-407 | The events that pass a level are selected in order, exactly those of at least the level. |
| DeliveryOrder.FreeMeansDelivered | mumu/log.cc:258-276 | When the logger's lock is free each appender has all accepted events of its level in lock-acquisition order. |
| DeliveryOrder.LaterIsPrefix | mumu/log.cc:266-271 | A later appender of equal level has a prefix of what an earlier one has, at most one event shorter. |
| DeliveryTotals.LedgerConserved | mumu/log.cc:258-276 | Per logger and event, what is accepted plus what the threads will still send never changes, the fallback to the root included. |
| DeliveryTotals.NoEventLost | mumu/log.cc:258-276 | When all threads are done each logger has accepted each event exactly as often as it was logged and routed there. |
| DeliveryEnds.StepsUseWork | mumu/log.cc:258-291 | Every step that is made lowers a measure of the work left, whatever formatters are in use. |
| DeliveryEnds.EverythingArrives | mumu/log.cc:258-276 | Every run, however far it has come, can be continued until all threads are done, and then every event is accepted as often as it was logged. |
| DeliveryEnds.ArrivesIffBrought | mumu/log.cc:258-276 | When all threads are done, a logger has accepted exactly the events that some thread brought it. |
| DeliveryEnds.BringsMeans | mumu/log.cc:261-274 | What brings an event: logging it at a sufficient level through a logger with appenders, or through one without any when the root's level passes too. |
| DeliveryTotals.StreamsInOrder | mumu/log.cc:258-276 | And every stream is whole records for those events, in the order of acceptance. |
| DeliveryTotals.DeliveryGoesOn | mumu/log.cc:258-291 | As long as a thread is not done, some thread can move. |
| DeliveryTotals.ReopensAreThrottled | mumu/log.cc:404-417 | Also with many threads the last reopen time never goes back, k reopens need 3k time units, and no record goes to a file 3 or more after it. |
| DeliveryTotals.ThrottleMeans | mumu/log.cc:404-417 | The same in numbers: k reopens by a time of at least 3k whenever the logger is free, and every record on its way to a file is less than 3 after the last reopen. |
| DeliveryTotals.ReopeningMarks | mumu/log.cc:408-411 | The last reopen time changes only to the time of the event that reopened, and the count only by one. |
| LockOrder.ExpandClimbs | mumu/log.cc:258-291 | Every operation takes locks only above all locks held: registry, variable, manager, logger, root, appender. |
| LockOrder.LoggerCallsClimb | mumu/log.cc:258-331 | That discipline for logging, formatter changes and printing a logger. |
| LockOrder.AppenderListCallsClimb | mumu/log.cc:355-398 | And for the appender list operations; that they take their locks at all is `LockGuards.ExpandGuarded`. |
| LockOrder.ConfigCallsClimb | mumu/log.cc:663-692 | And for the manager and for reading variables and editing their listeners. |
| LockOrder.AnnounceClimbs | mumu/config.h:451-463 | setValue runs its listeners under the read lock and gives it back before it takes the write lock. |
| LockOrder.RegistryCallsClimb | mumu/config.cc:16-21 | The lookups and the visit take the registry first. |
| LockOrder.LookupBodyClimbs | mumu/config.h:514-549 | What Lookup logs and reads under the registry lock lies above it. |
| LockOrder.EachVarClimbs | mumu/config.cc:87-94 | A visitor that prints every variable under the registry's read lock climbs too. |
| LockOrder.LoadClimbs | mumu/config.cc:57-85 | Loading holds nothing between its lookups and updates. |
| LockOrder.StepCompatible | mumu/thread.h:96-132 | No step takes a lock that another thread holds in a conflicting mode. |
| LockOrder.RunDisciplined | mumu/log.cc:258-291 | Every reachable state keeps exclusion and the climbing discipline. |
| LockOrder.SomeoneRuns | mumu/log.cc:258-291 | Following who holds what a blocked thread waits for ends at a thread that can move. |
| LockOrder.NoDeadlock | mumu/log.cc:258-291 | Any number of threads with any finite mix of operations, whatever the listeners do at each announcement, never reach a state in which one is unfinished and none can move; taking a lock one already holds counts as waiting. |
| LockGuards.ExpandGuarded | mumu/log.cc:258-398 | Every operation makes each of its accesses under the lock that guards the data. |
| LockGuards.EditsAreGuarded | mumu/log.cc:258-398 | In every interleaving, a thread about to edit an appender list, a logger's or appender's formatter, the manager, a variable, its listeners or the registry holds the lock of that, exclusively. |
| LockGuards.ReadsAreGuarded | mumu/config.h:451-549 | A thread about to walk over appenders, loggers, listeners or variables, or to look one up for registering, holds the lock of those. |
| LockGuards.NoRace | mumu/thread.h:96-132 | No two threads are ever about to make conflicting accesses to what one lock guards. |
| LockGuards.EditingCallsEdit | mumu/log.cc:365-382 | Each editing operation makes its one edit. |
| LockGuards.ReadingCallsRead | mumu/config.h:447-450 | Each reading operation makes its one access. |
| LockGuards.WalkingCallsReach | mumu/log.cc:680-692 | An operation that walks over loggers, appenders or variables reaches all of them, in order. |
| LockGuards.ListEditsChange | mumu/log.cc:355-382 | Adding appends, removing takes out one occurrence, clearing empties; other lists stay. |
| LockGuards.AddAppenderAdds | mumu/log.cc:355-364 | An appender is looked at before it is added, and once more if it is given a formatter. |
| LockGuards.AnnounceStores | mumu/config.h:451-463 | A changed value is stored exactly once. |
| LockGuards.LoggingReaches | mumu/log.cc:258-276 | A log call that passes the level reaches each appender once, in order, or the root when there is none. |
| LockGuards.AppendingUses | mumu/log.cc:404-417 | An appender that lets an event through is used under its lock, and before that once more when it reopens. |
| LockGuards.LoadingSets | mumu/config.cc:61-84 | Loading looks up each path and sets the variable or reports the failure, in order. |
| Names.ValidIsLower | mumu/config.h:44 | Lowercasing leaves valid names alone. |
| Names.AllowedChars | mumu/config.cc:31-32 | The characters allowed in names are exactly the listed ones. |
| Names.LowerMeans | mumu/config.h:44 | Lowercasing takes each capital to its small letter and leaves all else alone. |
| Flatten.ListAllMember | mumu/config.cc:27-56 | The recursion appends to the shared list exactly the nodes below, in preorder, under their keys joined with dots, as far as the name is valid. |
| Flatten.JoinMore | mumu/config.cc:52-53 | One more key adds a dot and the key, or just the key while the name is empty. |
| Flatten.PathsAreJoined | mumu/config.cc:44-54 | The paths of a tree are its nodes' keys joined, in preorder and with the right multiplicity. |
| Flatten.CollectedIffLed | mumu/config.cc:27-56 | A node is collected under a name if and only if the name is valid and some keys that lead to the node join to it. |
| Flatten.PruningIsFiltering | mumu/config.cc:27-56 | Cutting subtrees at the first bad prefix gives, in preorder and with multiplicity, exactly the valid paths of the whole tree. |
| Flatten.KeysAreLower | mumu/config.cc:70 | Every collected key is valid and is left alone by the loader's lowercasing. |
| ConfigVars.ChainIsUnbroken | mumu/config.h:451-463 | What a chain means: it starts at the value at registration, ends at the present one, each link starts where the one before ended and changes the value. |
| ConfigVars.ConfigVar.constructor | mumu/config.h:409-413 | A variable has the lowercased name, its default value and no listeners. |
| ConfigVars.ConfigVar.SetValue | mumu/config.h:451-463 | Every listener hears of the change once with old and new value, none if the value is equal, and all chains stay unbroken. |
| ConfigVars.ConfigVar.FromString | mumu/config.h:436-446 | Text that does not convert changes nothing and tells nobody; other text sets the value and tells every listener once if it is a change; the result is false either way. |
| ConfigVars.ConfigVar.AddListener | mumu/config.h:466-472 | The id is greater than all ids ever handed out for variables of the type; the new chain starts at the present value. |
| ConfigVars.ConfigVar.DelListener | mumu/config.h:474-477 | Removes that listener only, and nothing when the id belongs to another variable. |
| ConfigVars.ConfigVar.ClearListener | mumu/config.h:487-491 | Leaves no listener. |
| ConfigVars.IdsAreDisjoint | mumu/config.h:466-472 | Two variables of one type never share a listener id. |
| Registry.Config.Lookup | mumu/config.h:511-549 | Nothing registered is ever replaced or changes type; a new variable needs a valid name and is registered under exactly its lowercased name; a wrong type is found before an invalid name. |
| Registry.Config.LookupTyped | mumu/config.h:551-562 | Finds a variable exactly when the name is registered with that type. |
| Registry.Config.LookupBase | mumu/config.cc:16-21 | Finds the variable of any type, or null. |
| Registry.LastWriter | mumu/config.cc:61-84 | The specification of loading really is the last member at the path that converts, or the old value when none does. |
| Registry.PruningKeepsValues | mumu/config.cc:57-85 | Loading the pruned list settles every valid name as loading the whole tree would. |
| Registry.Config.SetFrom | mumu/config.cc:73-83 | A variable takes the value of the node's text, scalar or printed, if that converts, and keeps its own otherwise. |
| Registry.Config.LoadMember | mumu/config.cc:61-84 | One round of the loading loop, for all variables at once. |
| Registry.Config.LoadMembers | mumu/config.cc:61-84 | The loop keeps every variable at the value of the last member so far that converts. |
| Registry.Config.HoldsForTree | mumu/config.cc:57-85 | Values settled by the pruned list are those settled by the paths of the whole tree. |
| Registry.LoadedSettles | mumu/config.cc:57-85 | The specification of loading in terms of nodes and keys: the last node whose joined keys are the name and that converts, or the old value when no such node does. |
| Registry.Config.LoadFromYaml | mumu/config.cc:57-85 | After loading, each named variable has the value of the last preorder node whose keys, joined with dots, are its name and that converts, otherwise its old value. |
| SetValue.RunInv | mumu/config.h:451-490 | The read-write lock excludes as it should, and every operation is where its thread says, in every interleaving. |
| SetValue.AnnouncingIsStable | mumu/config.h:451-460 | While a setter announces, value and listeners do not change, and it has told exactly the first i listeners of one and the same change. |
| SetValue.OnlyAnnouncedValues | mumu/config.h:451-463 | The variable holds its first value or one whose setter told all listeners of one moment, once each, in id order, with one old value. |
| ListenerChains.RunBase | mumu/config.h:451-490 | In every interleaving the stores link up from the first value to the present one, ids only grow, and each listener is registered at the value of its moment. |
| ListenerChains.EditMeans | mumu/config.h:466-491 | A new listener comes last with an id never used before; a removed one is gone and the others stay. |
| ListenerChains.FaithfulIffUndisturbed | mumu/config.h:451-472 | For every run and listener: its calls mirror the stores since its registration throughout if and only if nothing tells it between an announcement and its store and no change announced before its registration is stored. |
| ListenerChains.InterferenceSpoils | mumu/config.h:451-472 | The first such step spoils the listener's record at once. |
| ListenerChains.UndisturbedChain | mumu/config.h:451-472 | Without such steps each live listener sees an unbroken chain of real changes from the value at registration to the present one, or to the one announced last. |
| ListenerChains.OneWriterIsEnough | mumu/config.h:451-490 | If only one thread sets the variable or adds listeners, every listener is told faithfully in every interleaving with readers and removals. |
| ListenerChains.SettersMayShareOldValue | mumu/config.h:451-463 | A run in which two setters announce from the same old value. |
| ListenerChains.LateListenerMisses | mumu/config.h:451-472 | A run in which one setter and one addListener leave a registered listener that never hears of the change. |
| ListenerChains.EqualValuesHideInterference | mumu/config.h:451-472 | A run in which interference leaves the chain of values whole because two setters write the same value. |
| CasLock.NextRule | mumu/thread.h:307-327 | A step sets the flag only when it was clear and changes the counter only as the guard's owner. |
| CasLock.MutualExclusion | mumu/thread.h:96-132 | If every guard is locked when destroyed, then in every interleaving the flag is set exactly when a guard holds the lock, and at most one does; increments need not be guarded. |
| CasLock.BreakingRun | mumu/thread.h:107-111 | Any section that ends with its guard unlocked, and any other thread with a section, have a run that breaks exclusion. |
| CasLock.UnlockedGuardBreaks | mumu/thread.h:107-126 | The smallest such run: one thread unlocks its guard and destroys it while another is inside. |
| CasLock.ExclusionIff | mumu/thread.h:96-132 | Guards exclude each other in every interleaving if and only if every section ends with its guard locked or at most one thread has sections. |
| CasLock.RunCounts | mumu/thread.h:96-132 | Counter plus increments still due never changes. |
| CasLock.NoLostUpdate | tests/test_thread.cc:25-32 | When all threads are done the counter has every increment. |
| CasLock.SomebodyMoves | mumu/thread.h:318-324 | While a thread is not done, some thread can move. |
| CasLock.StepsUseWork | mumu/thread.h:96-132 | Every step that is made lowers a measure of the work left. |
| CasLock.CanFinish | mumu/thread.h:96-132 | Every run, however far it has come, can be continued until all threads are done. |
| CasLock.CountIsProduct | tests/test_thread.cc:25-32 | N threads with M guarded increments each, load and store apart, end at N times M, and every run can be continued to that end. |
| ThreadStart.RunInv | mumu/thread.cc:60-143 | How far owner and child have come and what the object holds agree in every interleaving. |
| ThreadStart.ConstructorHandsOff | mumu/thread.cc:60-75 | Once the constructor has returned, the child has published its id, set its thread-locals and taken the callback. |
| ThreadStart.NoUseAfterDestruction | mumu/thread.cc:126-143 | The child never touches a destroyed Thread object, and after the hand-off not at all. |
| ThreadStart.HandleReleasedOnce | mumu/thread.cc:78-100 | Over any joins and the destruction the handle is joined or detached exactly once, and joined only after the child's end. |
| ThreadStart.SomebodyMoves | mumu/thread.cc:43-57 | Neither side waits for ever on the semaphore or the join. |

## Left out

- YAML text and `boost::lexical_cast`: trees are the datatype `Names.Node`; printing a tree is a parameter (`emit`),
  converting text to a value is one too (`fromStr`, None standing for an exception).
- The container conversions in config.h lines 91-384: library calls on YAML text.
- File streams, standard output, `strftime` and the FormatItem classes: a stream is the sequence of what was
  appended, an item's output is the uninterpreted `Piece` or `Chunk`.
- yaml-cpp details of `Defines`: a member of a scalar and the text of a non-scalar throw; an `appenders` node that is a
  map has no usable elements.
- File and standard output appenders are one class with an optional file name. Two standard output appenders share
  one stream in the source but hold different locks; here each has its own, so nothing is claimed about their mix.
- A logger whose appender has a null formatter crashes in the source; `Loggers.LogAppender.Log` asks for a formatter,
  which AddAppender always provides.
- Locks, guards, Thread and the concurrent form of loggers and variables are values in step systems, not classes,
  because their methods are interrupted between steps; memory orderings, pthread and semaphore internals are atomic
  steps, and a failing semaphore call is not modelled.
- DeliveryRecords.RecordsAreWhole: appender lists are fixed during a run, so edits of the lists, which need the
  logger's lock, are not interleaved with logging here; `LockOrder` has them.
- Reconfigure.LogsVar.SetValue: speaks of the formatters' patterns; that an appender writes the items of its pattern
  is promised for each patched logger by `Reconfigure.PatchLogger` and not carried through the manager.
- DeliveryOrder.RunsAreOrdered: appender lists and levels are fixed during a run and no appender is listed twice;
  without the latter an appender receives the events of several loggers or positions.
- Loggers made without a manager have no root to fall back to; in `Delivery` and `LockOrder` every logger but the
  root has one.
- LockOrder.NoDeadlock: listeners are limited to the operations the listener on `logs` is made of, in any number and
  order at each announcement, and a visitor prints each variable; a callback that sets its own variable would deadlock.
- ConfigVars.ConfigVar.SetValue: listeners only record what they are told; they neither throw nor change the variable.
- ConfigVars.ConfigVar.AddListener: calls on variables of one type are serial; the static counter is not guarded
  across variables, and its 64-bit wrap-around is not modelled.
- SetValue.RunInv: ids come from one counter; ids that other variables take in between are skipped ids of `Listen`.
- Loggers.LogAppender.Log: the 64-bit addition to the last reopen time does not wrap around.
- Reconfigure.OnLogsChanged: a set ordered by name is a map from names, visited in any order; the line the listener
  logs itself is not modelled, nor are the lines written by the registry and by loading.
- LockGuards.EditsAreGuarded: a logger's level and an appender's level and last reopen time are set without a lock in
  the source, so nothing is claimed about them.
- The registry holds variables of one value type `V` with a type name each, which stands for the C++ type.
- `isalpha` and `tolower` are those of the C locale.
- `Config::Visit`, the `toYamlString` methods and `getFormatter` of loggers appear in `LockOrder` only.
- Backtraces, assertion macros, singletons, log event wrappers and scripts: nothing to prove.
