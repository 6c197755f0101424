# A model of the WhaTap Go agent core

The WhaTap Go agent watches a Go application: it normalises SQL, carries a distributed trace from node to
node, collects profile steps, meters services and LLM calls, and ships packs over TCP. This project models
the state machines, parsers, buffers and protocols inside it and proves what they are for, over every input,
every run or every interleaving.

Code that updates state step by step is modelled twice: as functions on values, about which the theorems are
proved, and as a class or a method with loops whose contract equates its effect with those functions. A method
that a mutex protects is one step of a run. A run is a sequence of events; whatever the network, the clock, a
key generator, an evicting map or a full queue decides is part of an event, so a theorem about all runs is a
theorem about all of their decisions. Hashes and the `hexa32` codec are parameters with stated laws.

| files | what they model |
|---|---|
| Common | shared helpers |
| SqlLexer, SqlText, SqlLiterals, SqlComments, SqlTokens, SqlCache | the SQL normaliser and its cache |
| HeaderText, TraceContext | trace headers at one node, and traces across nodes |
| Failover | the TCP sender that remembers, replays and delivers at least once |
| StepTree, ProfileCollectors, RingCollector, NormalCollector | the four profile-step collectors |
| LlmAccounting, LlmGauge, LlmPublish, LlmPipeline, LlmChunks | LLM metering, publishing and message chunking |
| GoroutineDump | the goroutine-dump parser |
| ServiceMeter | the service meter and its caller tables |
| PathPrefix | the URL-prefix cache |
| DataPipelines | the text dictionary and zip batching |
| LineBuffer | the multi-line log buffer |

Main results:

- **SQL.** Every statement is a list of tokens, and the lexer follows a table over tokens that does not refer to
  it (`SqlTokens.EveryStatementIsTokens`, `SqlTokens.NormalisesToNormalForm`); so statements that differ only in
  their literals get the same normalised text and type, also through the cache (`SqlTokens.LiteralInsensitive`,
  `SqlCache.SameReportForAnyLiterals`), and each keeps its own literals as parameters. The output is at most
  twice as long as the input.
- **Trace.** Along any path of agents and W3C-only proxies every agent has the root's trace number, the depth
  counts the agents, and a claimed caller is the immediate predecessor with the very step of the call
  (`TraceChain.TraceIsOneChain`, `TraceChain.CallerIsAdjacentOrUnknown`).
- **Failover.** Every dequeued pack, in order, has been delivered, is in the retry queue or in the sender's hand
  if and only if at most 256 packs wait (`Failover.AtLeastOnce`, `Failover.AtLeastOnceExactly`); above that the
  oldest are in the writer at best (`Failover.AboveCapacity`); for each hypothesis there is a run that loses a
  pack without it. While nothing fails, delivery is exactly once (`Failover.ExactlyOnceWhileSmooth`). The other
  end reads a frame by the flag in it.
- **Collectors.** No step is lost, chunks are exactly full, child transactions abut and with a steady clock
  tile the elapsed time, the ring is the suffix of the history, and index and parent reproduce the nesting of
  pushes and pops.
- **LLM.** Each call is published exactly once, at the first event that may publish it; totals are sums; the
  gauge shows the publishes in progress; a triggered call occurs exactly once in the books of closed hours,
  current hour and meter (`LlmPipeline.EveryPublishedCallIsReported`); a chunked message is rebuilt from its
  lines in any order.

Where the code does other than its comments say or than one would expect, the model follows the code:

- `pack.go` speaks of 11 summed token fields and lists 12.
- `DataText.go` speaks of a reset at 00:00 UTC, but its date is counted in hours, so it resets every hour; in
  the model the reset is an event.
- `MeterService.go` bounds the table of callers from other projects by 307 only after its first reset.
- `Sender.go` encrypts a pack before it is remembered, so that a new key in between spoils it
  (`Failover.KeyChangeLosesPack`).

Properties that are false of the code in full generality, each with an input that shows it and its exact
condition:

- The 15-minute and hourly accounting loses a call before the epoch (`LlmAccounting.BeforeEpochACallIsLost`).
  It loses none if and only if no run of `TaskLLM` closes an hour before the report is due while calls of it
  are unreported (`LlmAccounting.EveryCallHasItsPlace`), which from the epoch on never happens.
- The hourly counts are not restarted when the first hour after the epoch is over
  (`LlmAccounting.FirstHourIsNotClosed`); from the epoch on that is the only hour that a run finds over and does
  not close (`LlmAccounting.KeepsCountsExactlyIf`), and without such a run every report counts calls of its own
  hour alone (`LlmAccounting.HoursAreReportedApart`).
- Cutting a message hangs if and only if 20000 continuation bytes in a row follow some byte
  (`LlmChunks.HangsExactlyOnLongTailRuns`); valid UTF-8 never contains them.
- The variance input of the service meter can be negative (`ServiceMeter.LongTransactionsWrap`). Below 2^64 it
  is so if and only if the squares reach 2^63 (`ServiceMeter.VarianceSign`); each count and sum is exact if and
  only if it fits its width (`ServiceMeter.BucketWraps`).
- The bucket and the caller tables can disagree; they agree if and only if no transaction has ended between
  their resets (`ServiceMeter.BucketAndSharesAgree`).
- With a clock that steps back, child transactions overlap (`SplitTxCollector.ClockBackOverlaps`). They tile the
  time if and only if the clock has not fallen behind at a hand-over (`SplitTxCollector.TilesExactlyIfOnward`).
- With more than 256 packs waiting, at-least-once fails (`Failover.OverflowLosesPack`). Under the other
  assumptions, and with no pack taken twice, it holds if and only if at most 256 packs have been remembered since
  the retry queue was emptied (`Failover.AtLeastOnceExactly`).
- The caller tables lose transactions once a bounded one has no room for a caller; they add up if and only if it
  had room for all (`ServiceMeter.CallersShareEverything`).
- The gauge forgets a key when a new one is started and 1024 are there (`LlmGauge.FullGaugeForgets`); a publish
  leaves it as it was exactly under the condition of `LlmGauge.PublishLeavesGaugeExactlyIf`.
- A replayed pack carries its payload if and only if its flag asks for hiding or encryption, or encryption is
  off (`Failover.ReplayCarriesPack`).
- `GetLastSteps` of the wrapped ring, asked for more than the ring holds, goes round again; the contract says
  exactly how (`CircularCollector.ProfileCircularCollector.GetLastSteps`).
- After a hash collision the SQL cache can answer for the other statement; it never does so wrongly if and only
  if statements that share a hash code have the same answer (`SqlCache.TransparentExactlyIfHarmless`). The same
  goes for the URL prefixes (`PathPrefix.TransparentExactlyIfHarmless`).
- The text dictionary can accept a text twice between resets (`TextDictionary.ResetDuringOfferDuplicates`,
  `TextDictionary.EvictionDuplicates`), exactly when the queue takes one that it had already accepted
  (`TextDictionary.DistinctExactlyIfClean`); without evictions and resets during offers it never does.

## Model

| member | source | states |
|---|---|---|
| SqlLexer.Step | agent/util/sqlutil/EscapeLiteralSQL.go:101-157 | one iteration reads at least one byte and never past the end of the statement, in every status and through every lookahead; the parameter buffer is empty until something is written to it |
| SqlLexer.LineLengthIs | agent/util/sqlutil/EscapeLiteralSQL.go:441-450 | a `--` comment extends to the first line feed, inclusive, or to the end |
| SqlLexer.RunUnfolds | agent/util/sqlutil/EscapeLiteralSQL.go:101-162 | the two buffers only grow: an iteration appends its effect in front of what the rest of the run appends |
| SqlLexer.StepIsAffordable | agent/util/sqlutil/EscapeLiteralSQL.go:199-500 | no iteration writes more than two bytes for each byte read, counting one byte owed by an open literal |
| SqlLexer.OutputAtMostDoubles | agent/util/sqlutil/EscapeLiteralSQL.go:96-197 | for every statement and substitutes of at most one byte the normalised text is at most twice as long |
| SqlLexer.EscapeLiteralSQL.constructor | agent/util/sqlutil/EscapeLiteralSQL.go:44-61 | a new lexer has `#` for both substitutes, keeps comments, and has empty buffers and an undecided type |
| SqlLexer.EscapeLiteralSQL.SetSubstitute | agent/util/sqlutil/EscapeLiteralSQL.go:63-73 | the substitute, and the one for numerals, quoted in string mode |
| SqlLexer.EscapeLiteralSQL.SetSubstituteStringMode | agent/util/sqlutil/EscapeLiteralSQL.go:75-89 | the mode, and the substitute for numerals when the mode changes |
| SqlLexer.EscapeLiteralSQL.SetIncludeComment | agent/util/sqlutil/EscapeLiteralSQL.go:91-94 | the comment setting |
| SqlLexer.EscapeLiteralSQL.GetNext | agent/util/sqlutil/EscapeLiteralSQL.go:501-509 | the byte after the given position, 0 at the end |
| SqlLexer.EscapeLiteralSQL.Process | agent/util/sqlutil/EscapeLiteralSQL.go:96-197 | the loop with its in-loop position skips terminates, indexes only inside the statement and computes the run of the lexer on the whole statement: text, parameters and type |
| SqlLexer.EscapeLiteralSQL.Dispatch | agent/util/sqlutil/EscapeLiteralSQL.go:106-157 | each byte goes to its handler, the backslash and the double quote by application type |
| SqlLexer.EscapeLiteralSQL.OnOthers | agent/util/sqlutil/EscapeLiteralSQL.go:199-250 | effect of any other byte in each of the seven statuses, including the statement type |
| SqlLexer.EscapeLiteralSQL.OnColon | agent/util/sqlutil/EscapeLiteralSQL.go:252-264 | effect of a colon in each status |
| SqlLexer.EscapeLiteralSQL.OnQuote | agent/util/sqlutil/EscapeLiteralSQL.go:266-309 | effect of a single quote in each status: opening, doubled, closing with the substitute, or dropped after a colon |
| SqlLexer.EscapeLiteralSQL.OnDQuote | agent/util/sqlutil/EscapeLiteralSQL.go:312-346 | effect of a double quote in each status |
| SqlLexer.EscapeLiteralSQL.OnAstar | agent/util/sqlutil/EscapeLiteralSQL.go:348-369 | effect of an asterisk, with the lookahead that ends a comment |
| SqlLexer.EscapeLiteralSQL.OnSlash | agent/util/sqlutil/EscapeLiteralSQL.go:371-390 | effect of a slash, with the lookahead that opens a comment; a lone slash is dropped |
| SqlLexer.EscapeLiteralSQL.OnBackslash | agent/util/sqlutil/EscapeLiteralSQL.go:392-426 | effect of a backslash and the byte it escapes |
| SqlLexer.EscapeLiteralSQL.OnMinus | agent/util/sqlutil/EscapeLiteralSQL.go:428-456 | effect of a minus, or of a whole line comment |
| SqlLexer.EscapeLiteralSQL.SkipLine | agent/util/sqlutil/EscapeLiteralSQL.go:438-450 | the inner loop stops on the line feed or past the end, having kept the line or nothing |
| SqlLexer.EscapeLiteralSQL.OnDot | agent/util/sqlutil/EscapeLiteralSQL.go:457-474 | effect of a dot in each status |
| SqlLexer.EscapeLiteralSQL.OnDigit | agent/util/sqlutil/EscapeLiteralSQL.go:475-500 | effect of a digit in each status |
| SqlText.TypeIsFixed | agent/util/sqlutil/EscapeLiteralSQL.go:219-228 | once decided, the statement type survives any further text |
| SqlText.FirstWordIsTheType | agent/util/sqlutil/EscapeLiteralSQL.go:219-250 | after blanks, the first letter of the first word is the type of the whole statement, whatever follows: S, U, D or I in either case, `*` for any other letter |
| SqlText.WordIsKept | agent/util/sqlutil/EscapeLiteralSQL.go:207-228 | a word is copied with its digits and nothing goes to the parameters |
| SqlText.BlanksAreKept | agent/util/sqlutil/EscapeLiteralSQL.go:219-228 | white space and neutral punctuation are copied |
| SqlText.BindVariableIsKept | agent/util/sqlutil/EscapeLiteralSQL.go:489-492 | a numbered bind variable is copied: its number is no literal |
| SqlLiterals.DoubledIsInside | agent/util/sqlutil/EscapeLiteralSQL.go:288-295 | every content, with its single quotes doubled, can stand in a literal; in PHP every one without a backslash |
| SqlLiterals.RunThroughContent | agent/util/sqlutil/EscapeLiteralSQL.go:266-426 | whatever stands between the marks (doubled quotes, in PHP escaped bytes, any other bytes) leaves the substitute in the text and itself in the parameters |
| SqlLiterals.RunThroughLiteral | agent/util/sqlutil/EscapeLiteralSQL.go:266-346 | the same for a whole quoted literal opened in NORMAL, ALPABET or NUMBER, by a single quote or in PHP by a double quote |
| SqlLiterals.OpenLiteralIsPutAside | agent/util/sqlutil/EscapeLiteralSQL.go:266-426 | a literal that is never closed goes to the parameters to the end of the statement, and no byte of its content to the text |
| SqlLiterals.RunThroughNumeral | agent/util/sqlutil/EscapeLiteralSQL.go:475-500 | a digit run with dots leaves one numeric substitute and itself in the parameters |
| SqlComments.RunThroughBlockComment | agent/util/sqlutil/EscapeLiteralSQL.go:348-390 | a block comment ends at its first end mark, whatever quotes and digits are in it, and is kept or dropped whole |
| SqlComments.RunThroughLineComment | agent/util/sqlutil/EscapeLiteralSQL.go:428-456 | the same for a line comment |
| SqlComments.CommentIsOneUnit | agent/util/sqlutil/EscapeLiteralSQL.go:348-456 | either comment is one unit: kept byte for byte or dropped, nothing to the parameters, NORMAL afterwards |
| SqlTokens.SignIsRead | agent/util/sqlutil/EscapeLiteralSQL.go:199-500 | what a single byte does outside literals and comments, by status: blanks and other neutral bytes, a colon, a dot, an asterisk, a lone minus and the letter behind a numeral are copied and end the word or numeral before them; a lone slash, a dot or a quote behind a colon and a PHP backslash with nothing to escape are dropped and change nothing |
| SqlTokens.DigitsAndLetters | agent/util/sqlutil/EscapeLiteralSQL.go:109-129 | which bytes are digits and letters: the ten digits of the switch, and the Latin letters with the underscore |
| SqlTokens.EscapedQuotedIsRead | agent/util/sqlutil/EscapeLiteralSQL.go:403-426 | in PHP a literal opened by an escaped quote leaves the substitute and goes to the parameters without a comma |
| SqlTokens.TokenIsRead | agent/util/sqlutil/EscapeLiteralSQL.go:199-509 | the lexer reads each of the eight kinds of token as the table says, which does not refer to the lexer: what it leaves, what it puts aside, and how the lexer goes on |
| SqlTokens.NormalisesToNormalForm | agent/util/sqlutil/EscapeLiteralSQL.go:96-509 | for every application type and every list of tokens that may follow each other, and whatever text comes after it: the text, the parameters and the mode in closed form; no literal byte reaches the text, every literal reaches the parameters in order and in full |
| SqlTokens.EveryStatementIsTokens | agent/util/sqlutil/EscapeLiteralSQL.go:96-509 | from every status every statement at all is such a list of tokens, but for a last comment or literal that has no end |
| SqlTokens.PlacedLookAlike | agent/util/sqlutil/EscapeLiteralSQL.go:348-456 | changing literals keeps every token where it may stand, the lookaheads included |
| SqlTokens.NormalFormForgetsLiterals | agent/util/sqlutil/EscapeLiteralSQL.go:96-509 | the text and the final mode do not depend on the literals, nor on comments if they are dropped |
| SqlTokens.LiteralInsensitive | agent/util/sqlutil/EscapeLiteralSQL.go:96-509 | for every application type two statements that differ only in literal values, and in the content of comments if these are dropped, have the same normalised text and type |
| SqlTokens.CommentsAreForgotten | agent/util/sqlutil/EscapeLiteralSQL.go:91-94 | with comments excluded, statements that differ in the content of a comment have the same result in all respects, whatever text follows |
| SqlTokens.SpacedStatement | agent/util/sqlutil/EscapeLiteralSQL.go:96-509 | if blanks follow every word, literal and comment, the text is the statement with each literal replaced by its substitute, and the parameters are the literals joined by commas |
| SqlCache.LookupIsFresh | agent/agent/trace/ParsedSql.go:49-90 | if statements that share a hash code have the same answer, one lookup answers as the bare lexer and keeps both maps coherent |
| SqlCache.FreshAnswer | agent/agent/trace/ParsedSql.go:75-90 | the answer for any statement in tokens: hash of the normal form, type, and the literals, or none if the two hashes are equal |
| SqlCache.NotNormalised | agent/agent/trace/ParsedSql.go:49-64 | a statement that is not normalised is reported by its own hash, one above 32 KiB by its first 32 KiB, both without type and parameters and past the cache |
| SqlCache.SecondLookupHits | agent/agent/trace/ParsedSql.go:65-90 | after a lookup the next one with the same hash code gets the same answer, hands the dictionary nothing and changes nothing; the two maps hold apart what is its own normalised text and what is not |
| SqlCache.CacheIsTransparent | agent/agent/trace/ParsedSql.go:36-90 | under the same condition, over any interleaving of lookups, evictions and resets the answers are those of the bare lexer, one for one |
| SqlCache.TransparentExactlyIfHarmless | agent/agent/trace/ParsedSql.go:36-90 | the condition is exact: the answers of every run over a set of statements are those of the bare lexer if and only if statements of the set that share a hash code have the same answer |
| SqlCache.SameReportForAnyLiterals | agent/agent/trace/ParsedSql.go:49-90 | end to end: in any run of the cache, statements that differ only in literals are reported under the same hash, that of their common normal form, and the same type, each with its own literals unless its hashes are equal |
| SqlCache.CollisionGivesWrongAnswer | agent/agent/trace/ParsedSql.go:65-73 | after a collision the second statement gets the answer of the first, which is wrong if and only if the two answers differ |
| SqlCache.HashesResolve | agent/agent/trace/ParsedSql.go:49-90 | over any run, collisions or not, every reported hash is the hash of a text handed to the dictionary in that run |
| SqlCache.SqlTextCache.constructor | agent/agent/trace/ParsedSql.go:36-37 | both maps start empty |
| SqlCache.SqlTextCache.ResetSqlText | agent/agent/trace/ParsedSql.go:39-42 | both maps are empty again |
| SqlCache.SqlTextCache.EscapeLiteral | agent/agent/trace/ParsedSql.go:49-90 | the answer, the new state of both maps and the text handed to the dictionary, in all five branches, running the imperative lexer |
| HeaderText.SplitFour | trace/Trace.go:529-533 | four fields joined by a separator that none contains are found again |
| HeaderText.TrimPadded | trace/Trace.go:573-573 | trimming removes exactly the white space around a text |
| HeaderText.Hex16RoundTrip | trace/Trace.go:529-531 | a signed 64-bit number survives printing as 16 unsigned hex digits, parsing and reinterpretation |
| HeaderText.AtoiRoundTrip | trace/Trace.go:533-533 | every signed 64-bit number survives decimal printing and parsing |
| TraceContext.TraceCtx.constructor | trace/Trace.go:176-193 | a new context has the drawn transaction id and no trace |
| TraceContext.SampledInHundred | trace/Trace.go:667-672 | the hundred keys that share all but their last two digits share their fate: sampled if and only if the two digits before are below the rate |
| TraceContext.SamplingLimits | trace/Trace.go:667-672 | at a rate of 100 or more every key is sampled, at 0 or less none; a larger rate drops no key and the sign of a key means nothing |
| TraceContext.SampledExactly | trace/Trace.go:667-672 | the rate is a percentage: for a rate from 0 to 100, of every ten thousand successive keys exactly a hundred times the rate are sampled |
| TraceContext.Announces | trace/Trace.go:550-685 | with tracing off the headers change nothing; with it on the node announces its own description and key under the new step |
| TraceContext.TraceCtx.UpdateMtrace | trace/Trace.go:550-685 | the whole new context from headers, sampling key and step key, and when it panics |
| TraceContext.TraceCtx.TakeHeaders | trace/Trace.go:569-665 | the three headers in order, the last two only when the caller header counts |
| TraceContext.TraceCtx.TakeTraceparent | trace/Trace.go:569-592 | what `traceparent` sets, and that a trace-id below 16 bytes panics |
| TraceContext.TraceCtx.TakeCaller | trace/Trace.go:593-630 | what the caller header sets, with and without `traceparent`, and whether it counts |
| TraceContext.TraceCtx.TakeDescription | trace/Trace.go:632-665 | what the descriptive headers set |
| TraceContext.TraceCtx.Prepare | trace/Trace.go:674-682 | a new step id and the two header values made from it |
| TraceContext.TraceCtx.GetMTrace | trace/Trace.go:519-549 | a new step id, the header values for it, and the headers returned |
| TraceContext.TraceCtx.StartHttpc | httpc/HttpCall.go:77-85 | the profile records the step id of the context |
| TraceChain.Receive | trace/Trace.go:550-685 | from headers in flight a node learns the sender's trace number, its depth plus one, the parent named last, and the sender as caller exactly when the parent is the sender's step |
| TraceChain.ReceiveDescription | trace/Trace.go:632-665 | from headers in flight the caller's description, URL and key are taken over if and only if the parent is the sender's step |
| TraceChain.ReceiveDescriptionAlone | trace/Trace.go:593-665 | without `traceparent` or without a caller header they are always taken over; a text of one field describes nothing |
| TraceChain.ReceiveCallerAlone | trace/Trace.go:593-630 | without `traceparent` the caller header alone gives trace number, depth, caller and step, and the path stays traced |
| TraceChain.ReceiveShortCaller | trace/Trace.go:593-630 | a caller header of three fields gives all but the step, one with fewer fields nothing |
| TraceChain.ReceiveBadNumbers | trace/Trace.go:569-592 | a low half of the trace-id or a parent that is no number reads as 0 |
| TraceChain.ShortTraceIdPanics | trace/Trace.go:577-577 | on a hexadecimal trace-id the node panics if and only if it is shorter than 16 bytes |
| TraceChain.Send | trace/Trace.go:519-549 | after any number of outgoing calls the last headers are in flight from the node, and only the step has changed |
| TraceChain.Relay | trace/Trace.go:569-592 | a W3C-only node that replaces the parent-id leaves the headers in flight from the same agent |
| TraceChain.RoundTrip | instrumentation/net/http/whataphttp/http.go:110-125 | headers first, profile step after: the recorded step is the one in the headers in flight |
| TraceChain.AgentHop | trace/Trace.go:519-685 | receiving and sending at one agent of a path, together |
| TraceChain.PathIsLinked | trace/Trace.go:519-685 | along every path of agents and proxies no node panics and each is linked to the nearest agent before it |
| TraceChain.LinkedKeepsTrace | trace/Trace.go:519-685 | every agent has the root's trace number, and its depth is the root's plus the agents so far, as a 32-bit number |
| TraceChain.TraceIsOneChain | trace/Trace.go:519-685 | the chain invariant from any traced root along any path: one trace number, depth counts agents, and between adjacent agents caller, step and depth are right |
| TraceChain.CallerIsNeverADistantNode | trace/Trace.go:610-625 | behind a proxy with a fresh id no caller is claimed |
| TraceChain.CallerIsAdjacentOrUnknown | trace/Trace.go:610-625 | on a whole path with fresh proxy ids, every agent behind a proxy claims no caller and knows the proxy's id |
| TraceChain.RootWithoutHeaders | trace/Trace.go:667-672 | a request without headers knows no caller and starts a traced path, under the drawn key, if and only if the key is sampled and nonzero; at a rate of 100 or more that is every key but 0, at 0 or less none |
| TraceChain.RootWithTraceparent | trace/Trace.go:569-592 | the low half of a W3C trace-id is the trace number; the path is traced if and only if it is nonzero |
| Failover.ReplayCarriesPack | agent/net/TcpSession.go:594-644 | the other end goes by the flag of the frame, bit 1 alone for hiding and bit 2 alone for encryption: it reads the pack out of every first transmission, and out of a replay, which is then what was first sent, if and only if the level is 0 or the flag hides or encrypts |
| Failover.RetryHoldsTheLast | agent/net/Sender.go:173-175 | in any run at all the retry queue holds the last 256 packs remembered since it was emptied |
| Failover.ReplayCarriesQueue | agent/net/TcpSession.go:426-479 | replaying a queue of replayable packs delivers it in order and in full |
| Failover.ReplayedInFull | agent/net/TcpSession.go:426-479 | a replay that goes through delivers the whole retry queue, in order, and leaves it and the writer empty |
| Failover.FailedReplayIsIgnored | agent/net/TcpSession.go:214-225 | a replay that fails delivers nothing, empties the retry queue all the same and leaves a connection whose next send closes it |
| Failover.FailedSendIsReplayed | agent/net/TcpSession.go:361-425 | a send whose write or flush fails closes the connection and leaves the retry queue alone, and the next opening delivers all of it |
| Failover.ExactlyOnceWhileSmooth | agent/net/Sender.go:132-245 | while one connection lasts and nothing fails, the packs taken are, in order and once each, those delivered, those in the writer and the one in hand |
| Failover.StepKeepsInv | agent/net/TcpSession.go:361-479 | every step keeps the protocol invariant: what left the retry queue was delivered in order, what is in it is in the writer of a working connection, and the pack in hand has a wire form that the connection carries |
| Failover.AtLeastOnce | agent/net/Sender.go:144-245 | under the stated assumptions and with at most 256 packs remembered since the retry queue was emptied, after any run the dequeued packs are, in order, those delivered, those in the retry queue and the one in hand; each of them is in one of these |
| Failover.AboveCapacity | agent/net/Sender.go:173-175 | with more than 256, the oldest are in the writer, in order, while the connection works; if no pack is taken twice they are neither delivered nor in the retry queue nor in hand |
| Failover.AtLeastOnceExactly | agent/net/Sender.go:144-245 | the exact bound: among runs that meet the assumptions and take no pack twice, nothing is lost if and only if at most 256 packs have been remembered since the retry queue was emptied |
| Failover.RunIsTraceable | agent/net/TcpSession.go:361-479 | in any run at all only packs that have left the retry queue are delivered, and only packs that are or were in it are written |
| Failover.RecoveredDeadlineLosesPack | agent/net/TcpSession.go:389-393 | without the deadline assumption a pack is lost: the run from the start |
| Failover.FailedReplayLosesPack | agent/net/TcpSession.go:214-225 | without successful replay a pack is lost: the run from the start |
| Failover.UnreplayableIsLost | agent/net/TcpSession.go:622-624 | a pack with another flag is lost although every step went well: the run from the start |
| Failover.LevelChangeLosesPack | agent/net/Sender.go:150-154 | a pack taken when the cypher level has changed is dropped and the connection closed: the run from the start |
| Failover.KeyChangeLosesPack | agent/net/Sender.go:181-190 | a pack encrypted before another opening changes the key, and remembered after it, is sent under the old key and lost: the run from the start |
| Failover.OverflowLosesPack | agent/net/Sender.go:173-175 | with more than 256 packs that ask for no flush all assumptions hold and yet the oldest is gone once the connection closes, also after a full replay: the run from the start |
| Failover.TcpSender.constructor | agent/net/TcpSession.go:52-64 | a session starts unconnected with an empty retry queue |
| Failover.TcpSender.CloseSession | agent/net/TcpSession.go:516-530 | closing drops the client and keeps the retry queue |
| Failover.TcpSender.ClearRetryQueue | agent/net/TcpSession.go:421-421 | the retry queue is emptied and what was in it counts as done |
| Failover.TcpSender.SendFrame | agent/net/TcpSession.go:361-425 | the state after one send, for each thing the network can do |
| Failover.TcpSender.SendFailover | agent/net/TcpSession.go:426-479 | the replay loop writes exactly the replay frames in order, up to the first failure |
| Failover.TcpSender.OpenSession | agent/net/TcpSession.go:105-230 | an opened session has a new writer, has replayed, ignores the result and has an empty retry queue |
| Failover.TcpSender.EncodePack | agent/net/Sender.go:179-196 | the payload by level, flag and the session's key at this moment |
| Failover.TcpSender.RememberPack | agent/net/Sender.go:173-175 | the pack is the newest in the retry queue |
| Failover.TcpSender.TransmitPack | agent/net/Sender.go:176-245 | the payload made before is sent |
| Failover.TcpSender.Iterate | agent/net/Sender.go:132-245 | one iteration of the send loop: a changed level drops the pack and closes; otherwise time sync, encode, remember and send in this order |
| StepTree.CountersFollowNesting | agent/agent/trace/ProfileLargeCollector.go:58-83 | for every well-nested run the two counters are the number of starts and the index of the innermost open step, and the caller's open steps are stamped accordingly |
| StepTree.OpenBefore | agent/agent/trace/ProfileLargeCollector.go:124-138 | what was open when an open step started are the steps around it |
| StepTree.ParentBeforeChild | agent/agent/trace/ProfileLargeCollector.go:62-63 | a step's parent is -1 or has a smaller index |
| StepTree.RecordedOnce | agent/agent/trace/ProfileLargeCollector.go:68-138 | no step is recorded twice, nor while it is still to be recorded |
| StepTree.RecordedIsATree | agent/agent/trace/ProfileLargeCollector.go:58-138 | recorded indices are unique and every parent precedes its child |
| StepTree.RecordedOrOpen | agent/agent/trace/ProfileLargeCollector.go:58-138 | every step that has started is recorded, or still open and to be recorded when it ends |
| StepTree.RecordedIndicesAreAll | agent/agent/trace/ProfileLargeCollector.go:58-138 | at the end of a run with nothing open the recorded indices are exactly 0 up to the number of starts |
| StepTree.RecordedSnoc | agent/agent/trace/ProfileLargeCollector.go:58-138 | what the counters write at an operation is what the nesting says is recorded there |
| StepChunks.PutKeepsAll | agent/agent/trace/ProfileLargeCollector.go:71-81 | storing in a bounded buffer keeps everything in order and every chunk handed on exactly full |
| LargeCollector.LosesNothing | agent/agent/trace/ProfileLargeCollector.go:58-142 | after any well-nested run the full chunks sent and the buffer are the recorded steps, and the counters are the nesting |
| LargeCollector.ProfileLargeCollector.constructor | agent/agent/trace/ProfileLargeCollector.go:36-52 | empty buffer, index 0, no parent |
| LargeCollector.ProfileLargeCollector.PushStep | agent/agent/trace/ProfileLargeCollector.go:58-66 | the step is stamped and becomes the parent; nothing is stored |
| LargeCollector.ProfileLargeCollector.Store | agent/agent/trace/ProfileLargeCollector.go:128-136 | a full buffer is handed on and replaced, then the step is stored |
| LargeCollector.ProfileLargeCollector.AddStep | agent/agent/trace/ProfileLargeCollector.go:68-83 | the step is stamped, stored and counted |
| LargeCollector.ProfileLargeCollector.PopStep | agent/agent/trace/ProfileLargeCollector.go:124-138 | the step is stored and its parent is the parent again |
| LargeCollector.ProfileLargeCollector.GetLastSteps | agent/agent/trace/ProfileLargeCollector.go:144-158 | the last min(n, size) buffered steps in order |
| LargeCollector.ProfileLargeCollector.GetSteps | agent/agent/trace/ProfileLargeCollector.go:159-171 | the buffered steps in order |
| SplitTxCollector.RecordKeeps | agent/agent/trace/ProfileSplitTxCollector.go:78-95 | recording one step loses none, keeps chunks full and numbered, summaries matching and intervals abutting |
| SplitTxCollector.LosesNothingAndAbuts | agent/agent/trace/ProfileSplitTxCollector.go:68-187 | after any well-nested run at any times: child chunks and buffer are the recorded steps, summaries describe the chunks one by one, and the intervals of the children abut from 0 to childStart |
| SplitTxCollector.ChildOfCall | agent/agent/trace/ProfileSplitTxCollector.go:78-183 | a call that finds the buffer full sends it as a child with the next number and the new transaction id, from the end of the last child to this moment; any other call sends nothing |
| SplitTxCollector.IntervalsAbut | agent/agent/trace/ProfileSplitTxCollector.go:156-182 | read off by position: the first child starts at 0, each later one where its predecessor ended |
| SplitTxCollector.ForwardExactlyIfOnward | agent/agent/trace/ProfileSplitTxCollector.go:155-183 | no interval has a negative length if and only if at each hand-over the clock has not fallen behind childStart |
| SplitTxCollector.PassedOnce | agent/agent/trace/ProfileSplitTxCollector.go:155-183 | over intervals that abut, a moment on the way is passed forwards once more often than backwards, every other moment as often |
| SplitTxCollector.TilesExactlyIfForward | agent/agent/trace/ProfileSplitTxCollector.go:155-183 | intervals that abut tile the time up to their end if and only if none has a negative length |
| SplitTxCollector.TilesExactlyIfOnward | agent/agent/trace/ProfileSplitTxCollector.go:78-187 | the children of a run tile the time from 0 to childStart, if that is not negative, if and only if at each hand-over the clock has not fallen behind |
| SplitTxCollector.TilesExactly | agent/agent/trace/ProfileSplitTxCollector.go:155-183 | intervals that abut and have no negative length tile: every moment from 0 to the end is in exactly one, every other moment in none |
| SplitTxCollector.SteadyClockTiles | agent/agent/trace/ProfileSplitTxCollector.go:78-187 | so after any well-nested run with a clock that never steps back the children tile the time from 0 to childStart |
| SplitTxCollector.ClockBackOverlaps | agent/agent/trace/ProfileSplitTxCollector.go:155-183 | with a clock that steps back, a run in which one child has a negative length and two others overlap |
| SplitTxCollector.SummaryOf | agent/agent/trace/ProfileSplitTxCollector.go:174-181 | the k-th summary names number and transaction of the k-th child, and its start and its elapsed time exactly if they fit 32 bits |
| SplitTxCollector.ProfileSplitTxCollector.constructor | agent/agent/trace/ProfileSplitTxCollector.go:43-62 | two empty buffers, child number 1, no parent, start 0 |
| SplitTxCollector.ProfileSplitTxCollector.PushStep | agent/agent/trace/ProfileSplitTxCollector.go:68-76 | the step is stamped and becomes the parent; nothing is stored |
| SplitTxCollector.ProfileSplitTxCollector.StoreSummary | agent/agent/trace/ProfileSplitTxCollector.go:162-187 | a full parent buffer is handed on, then the summary is stored |
| SplitTxCollector.ProfileSplitTxCollector.Send | agent/agent/trace/ProfileSplitTxCollector.go:155-183 | the child chunk with its interval, its summary with times cut to 32 bits, and the new start |
| SplitTxCollector.ProfileSplitTxCollector.Store | agent/agent/trace/ProfileSplitTxCollector.go:142-150 | a full child buffer is sent, then the step is stored |
| SplitTxCollector.ProfileSplitTxCollector.AddStep | agent/agent/trace/ProfileSplitTxCollector.go:78-95 | the step is stamped, recorded and counted |
| SplitTxCollector.ProfileSplitTxCollector.PopStep | agent/agent/trace/ProfileSplitTxCollector.go:138-153 | the step is recorded and its parent is the parent again |
| SplitTxCollector.ProfileSplitTxCollector.GetSteps | agent/agent/trace/ProfileSplitTxCollector.go:206-238 | summaries not handed on, then steps not sent, in each of the four cases |
| SplitTxCollector.ProfileSplitTxCollector.GetSplitCount | agent/agent/trace/ProfileSplitTxCollector.go:271-273 | the number of parent chunks handed on |
| CircularCollector.StoreHolds | agent/agent/trace/ProfileCircularCollector.go:66-75 | storing keeps the ring a representation of the history, also at a wraparound |
| CircularCollector.RingShowsLatest | agent/agent/trace/ProfileCircularCollector.go:160-180 | unrolling the ring gives the last min(N, length) of the history in order |
| CircularCollector.RingCounters | agent/agent/trace/ProfileCircularCollector.go:45-128 | for every well-nested run the ring's counters are the nesting |
| CircularCollector.RingFollowsRun | agent/agent/trace/ProfileCircularCollector.go:45-128 | after any well-nested run the ring represents all started steps, stamped |
| CircularCollector.RingShowsLatestOfRun | agent/agent/trace/ProfileCircularCollector.go:45-180 | and shows the latest of them |
| CircularCollector.LengthCountsStarts | agent/agent/trace/ProfileCircularCollector.go:217-219 | loops times length plus position, the next index and the number of starts are the same number, across wraparounds |
| CircularCollector.WalkedBackIsSuffix | agent/agent/trace/ProfileCircularCollector.go:146-157 | the backward walk over at most one length is the suffix of the history |
| CircularCollector.ProfileCircularCollector.constructor | agent/agent/trace/ProfileCircularCollector.go:25-39 | empty ring, index 0, no parent |
| CircularCollector.ProfileCircularCollector.PushStep | agent/agent/trace/ProfileCircularCollector.go:45-60 | the step is stamped, stored and becomes the parent |
| CircularCollector.ProfileCircularCollector.AddStep | agent/agent/trace/ProfileCircularCollector.go:62-76 | the step is stamped and stored |
| CircularCollector.ProfileCircularCollector.PopStep | agent/agent/trace/ProfileCircularCollector.go:124-128 | the step's parent is the parent again |
| CircularCollector.ProfileCircularCollector.GetSteps | agent/agent/trace/ProfileCircularCollector.go:160-180 | the latest steps of the represented history, in each of the four cases |
| CircularCollector.ProfileCircularCollector.GetLastSteps | agent/agent/trace/ProfileCircularCollector.go:130-158 | the last min(n, N) steps for n up to the length, and exactly what the walk returns beyond it |
| CircularCollector.ProfileCircularCollector.GetLastWrapped | agent/agent/trace/ProfileCircularCollector.go:146-157 | the backward loop with its jump to the end |
| CircularCollector.ProfileCircularCollector.GetLastUnwrapped | agent/agent/trace/ProfileCircularCollector.go:133-144 | the forward loop before the first wraparound |
| CircularCollector.ProfileCircularCollector.Length | agent/agent/trace/ProfileCircularCollector.go:217-219 | loops times length plus position |
| NormalCollector.Adjusted | agent/agent/config/Config.go:968-978 | for any configured values normal ≤ heavy ≤ max, and each limit is lowered only as far as that needs |
| NormalCollector.FilledUpTo | agent/agent/trace/ProfileNormalCollector.go:44-79 | of any number of offers of one kind the first are taken: fast steps up to normal, slow ones up to heavy, heavy and final ones up to max |
| NormalCollector.SizeBound | agent/agent/trace/ProfileNormalCollector.go:44-79 | for any offers the size is at most max, and at most the ordinary tiers plus the reserved offers |
| NormalCollector.ReserveHolds | agent/agent/trace/ProfileNormalCollector.go:44-79 | the first max − heavy heavy or final steps are accepted whatever ordinary steps interleave, and the buffer never outgrows its capacity |
| NormalCollector.ReserveIsExact | agent/agent/trace/ProfileNormalCollector.go:57-78 | the reserve is no larger: a run after which the next heavy step is dropped |
| NormalCollector.ProfileNormalCollector.constructor | agent/agent/trace/ProfileNormalCollector.go:24-38 | empty buffer, no parent |
| NormalCollector.ProfileNormalCollector.AddStep | agent/agent/trace/ProfileNormalCollector.go:44-66 | accepted in the normal tier, or in the heavy tier when slow; numbered when accepted, untouched when not |
| NormalCollector.ProfileNormalCollector.AddHeavyStep | agent/agent/trace/ProfileNormalCollector.go:68-79 | accepted below max; numbered when accepted, untouched when not |
| NormalCollector.ProfileNormalCollector.AddTailStep | agent/agent/trace/ProfileNormalCollector.go:178-188 | the same for a final step |
| NormalCollector.ProfileNormalCollector.GetSteps | agent/agent/trace/ProfileNormalCollector.go:100-120 | a permutation sorted by start time, renumbered 0..n−1 in place, the buffer's order and the parents unchanged |
| LlmAccounting.UnreportedExactlyIf | agent/agent/counter/TaskLLM.go:52-67 | a run closes an hour without reporting if and only if the hour is over before the report is due, which the state of `TaskLLM` and the clock before the run tell |
| LlmAccounting.NeverEarly | agent/agent/counter/TaskLLM.go:52-67 | from the epoch on, whatever the clock does, that condition is never met |
| LlmAccounting.ClosesOnlyAfterReport | agent/agent/counter/TaskLLM.go:48-68 | so an hour closes only in a run that has just reported its whole count |
| LlmAccounting.ReportTimesGrow | agent/agent/counter/TaskLLM.go:55-61 | a report goes out exactly when its time has come, is dated at that time, a multiple of a quarter, and the next one is due at the end of the current quarter |
| LlmAccounting.RunKeepsBooks | agent/agent/counter/TaskLLM.go:48-68 | a run of `TaskLLM` keeps every call in its place, and an hour that it closes loses exactly the calls that no report counts |
| LlmAccounting.EveryCallHasItsPlace | agent/agent/counter/TaskLLM.go:48-68 | over any events and any clock each published call is, in order, in exactly one closed hour, the current hour or the meter, with matching numbers; and no call is lost if and only if no run met the losing condition |
| LlmAccounting.FinalReportsAreLast | agent/agent/counter/TaskLLM.go:58-67 | the final report of a closed hour is the last one made about it |
| LlmAccounting.BeforeEpochACallIsLost | agent/agent/counter/TaskLLM.go:52-67 | a run from the start, before the epoch, after which a published call is in no report and no counter |
| LlmAccounting.RunKeepsOrder | agent/agent/counter/TaskLLM.go:48-68 | a run of `TaskLLM` keeps reports at strictly increasing quarters with units that never fall within an hour |
| LlmAccounting.NothingIsDropped | agent/agent/counter/TaskLLM.go:48-68 | over any events and any clock from the epoch on no call is lost: each is in the final report of one closed hour, in the current hour or in the meter; reports are in order |
| LlmAccounting.KeepsCountsExactlyIf | agent/agent/counter/TaskLLM.go:52-67 | from the epoch on a run keeps the counts of an hour that is over if and only if they were begun in the first hour of the epoch, whose start reads as not yet set |
| LlmAccounting.HoursAreReportedApart | agent/agent/counter/TaskLLM.go:48-68 | over any events and any clock from the epoch on without such a run, all reports between two closings are about one hour, within which they are dated |
| LlmAccounting.TotalsRestartHourly | agent/agent/counter/TaskLLM.go:62-67 | so with all runs an hour or more after the epoch, reports with the same number of closed hours before them are dated less than an hour apart |
| LlmAccounting.AdoptedHourMixes | agent/agent/counter/TaskLLM.go:52-67 | after such a run the next report of the hour counts calls of the first hour too |
| LlmAccounting.FirstHourIsNotClosed | agent/agent/counter/TaskLLM.go:52-67 | the run from the start: a call of the first hour of the epoch is counted in a report about the fourth |
| LlmAccounting.MeterLLM.constructor | agent/agent/counter/meter/MeterLLM.go:120-126 | counters start at zero |
| LlmAccounting.MeterLLM.OnStart | agent/agent/counter/meter/MeterLLM.go:130-139 | the key's entry counts one more; a new key in a full map drops another entry |
| LlmAccounting.MeterLLM.OnEnd | agent/agent/counter/meter/MeterLLM.go:141-154 | the key's entry counts one less and goes when it is empty |
| LlmAccounting.MeterLLM.IncrementMeter | agent/agent/counter/meter/MeterLLM.go:319-323 | one more call, errors unchanged |
| LlmAccounting.MeterLLM.IncrementMeterError | agent/agent/counter/meter/MeterLLM.go:325-329 | one more error, calls unchanged |
| LlmAccounting.MeterLLM.GetBucketReset | agent/agent/counter/meter/MeterLLM.go:334-354 | both counters are handed over and start again |
| LlmAccounting.TaskLLM.constructor | agent/agent/counter/TaskLLM.go:25-27 | nothing counted, no times set |
| LlmAccounting.TaskLLM.Process | agent/agent/counter/TaskLLM.go:36-68 | the new task state and the report sent, if any, with truncating division |
| LlmPublish.AddTokensAt | agent/agent/llm/pack.go:253-257 | summing over distinct fields adds to each listed field its own value and to no other |
| LlmPublish.TwelveFields | agent/agent/llm/pack.go:25-35 | the summary fields are the twelve token fields other than the dimensions, each once |
| LlmPublish.StepLog | agent/agent/llm/handler.go:83-135 | which events publish which call, and that no other call changes |
| LlmPublish.PublishedExactlyOnce | agent/agent/llm/state.go:319-375 | over any interleaving each call is published exactly once if some event triggers it, at the first such event, and otherwise never |
| LlmPublish.EndIsPublished | agent/agent/llm/handler.go:83-135 | after any run, the end of the HTTP call of an automatic call publishes it with the slot and ids of that end, its status and error unless the user has set them, a failure as an API error, and, but for streams, its elapsed time as latency |
| LlmPublish.PlainCall | agent/agent/llm/handler.go:83-135 | a new call of which the user says nothing is published with the slot, ids, status, error and elapsed time of its HTTP end, and nothing else |
| LlmPublish.StreamLatency | agent/agent/llm/state.go:329-348 | a stream whose HTTP call ended before the first token came takes until it is published, any other as long as the HTTP call |
| LlmPublish.UsersErrorWins | agent/agent/llm/handler.go:114-117 | an error set by the user survives the end of the HTTP call |
| LlmPublish.UsersStatusWins | agent/agent/llm/handler.go:109-112 | and so does a status |
| LlmPublish.ChangesAddUp | agent/agent/llm/state.go:117-300 | only the first token time counts, the last of several token counts and costs, and a cost of zero says nothing |
| LlmPublish.FinalTimes | agent/agent/llm/state.go:329-348 | a publication knows the time to the first token if there was one, and a stream's latency is longer than it or reaches to the moment of publication; nothing else changes |
| LlmPublish.TotalsAreSums | agent/agent/llm/pack.go:245-285 | over any interleaving each transaction's calls, errors, sums of the twelve token fields, latency and three costs are those of the calls published into it, its names are those that occur in them, and its ids the first and last ones set; the meter counts every publication and every failed one |
| LlmPublish.GaugeShowsPublishes | agent/agent/llm/handler.go:137-172 | over any interleaving of publishes, each with its start and end, never more than 1024 at a time: the bounded gauge shows for each key how many are in progress, and is empty as at first when all have finished |
| LlmPublish.AtSlash | agent/agent/llm/pack.go:41-53 | host and path of a URL without its scheme: together they are it, no slash in the host, the path empty or led by one |
| LlmPublish.UrlParts | agent/agent/llm/pack.go:41-53 | scheme, host and path of a URL are told apart, with a scheme and without |
| LlmPublish.KeyFromUrl | agent/agent/llm/state.go:100-112 | a call to `scheme://host/path` names host and path, whether the URL is known from the start or only when it is sent; what the user has set stays |
| LlmPublish.UrlAgain | agent/agent/llm/pending.go:49-69 | once the URL or its path is there, giving the URL again leaves the path and touches nothing but the key; an empty URL changes nothing at all |
| LlmPublish.LlmTxStatus.constructor | agent/agent/llm/pack.go:230-241 | all totals start at zero |
| LlmPublish.LlmTxStatus.Accumulate | agent/agent/llm/pack.go:245-285 | count, errors, token sums, latency, costs, first and last step and names after one more call |
| LlmPublish.LlmTxStatus.NoteNames | agent/agent/llm/pack.go:276-284 | the names set so far, empty and unknown ones left out |
| LlmPublish.LlmTxStatus.SumTokens | agent/agent/llm/pack.go:253-257 | the loop adds the set fields of the twelve summary fields |
| LlmPublish.FillKey | agent/agent/llm/state.go:100-112 | provider, model, operation and URL of a new call, inferred where the configuration is silent |
| LlmPublish.LLMState.constructor | agent/agent/llm/state.go:95-115 | a new call is unpublished and automatic, under that key |
| LlmPublish.LLMState.MarkManualPublish | agent/agent/llm/state.go:298-303 | an enabled call becomes manual, nothing else changes |
| LlmPublish.LLMState.SetErrorOf | agent/agent/llm/state.go:257-263 | the error is overwritten unless the call is disabled |
| LlmPublish.LLMState.Publish | agent/agent/llm/state.go:319-375 | the first publication finishes the times, counts the call and its failure, adds it to its transaction and takes the gauge up and down; any later one changes nothing |
| LlmPublish.LLMState.Dispatch | agent/agent/llm/state.go:359-371 | meters, gauge and transaction after one call |
| LlmPublish.LLMState.PublishMeters | agent/agent/llm/handler.go:137-172 | the call is counted, and the gauge goes up and down again |
| LlmPublish.LLMState.FinishTimes | agent/agent/llm/state.go:329-348 | time to first token and stream latency as recomputed |
| LlmPublish.LLMState.AddToTransaction | agent/agent/llm/state.go:361-371 | the slot's totals, new or old, with this call added |
| LlmPublish.LLMState.HandleHttpcEnd | agent/agent/llm/handler.go:83-135 | with LLM mode off nothing changes; otherwise the facts of the HTTP call are noted, and an automatic call is published the first time, with meter and transaction changed accordingly, and a manual one is not |
| LlmPublish.LLMState.NoteEnd | agent/agent/llm/handler.go:99-128 | latency, status, error, step, transaction and slot after the HTTP call, explicit values winning |
| LlmPipeline.LedgerMatchesLog | agent/agent/llm/handler.go:167-170 | the books enter exactly the publications, call by call and in order |
| LlmPipeline.EveryPublishedCallIsReported | agent/agent/counter/TaskLLM.go:36-68 | end to end over any interleaving of calls and runs of `TaskLLM` from the epoch on: a call occurs exactly once in the books if some event triggers it and not at all otherwise, none is lost, and the numbers are those of the calls |
| LlmGauge.StartShows | agent/agent/counter/meter/MeterLLM.go:130-139 | a start keeps the gauge in step with the publishes in progress |
| LlmGauge.EndShows | agent/agent/counter/meter/MeterLLM.go:141-154 | so does an end |
| LlmGauge.NothingIsEvicted | agent/agent/counter/meter/MeterLLM.go:111-116 | with fewer than 1024 publishes in progress a start drops no entry of the bounded map |
| LlmGauge.PublishLeavesGaugeExactlyIf | agent/agent/counter/meter/MeterLLM.go:130-154 | a publish leaves the gauge as it was if and only if its key is there, the map is not full, or the entry to be dropped is not there |
| LlmGauge.FullGaugeForgets | agent/agent/counter/meter/MeterLLM.go:111-139 | with 1024 keys in progress the publish of another one makes the gauge forget the oldest: the input |
| LlmChunks.CutAtBoundary | agent/agent/llm/chunk.go:27-32 | valid UTF-8 (section 4 of RFC 3629) cut before a byte that is no tail is valid on both sides |
| LlmChunks.NearBoundary | agent/agent/llm/chunk.go:27-32 | in valid UTF-8 such a byte is at most three bytes back |
| LlmChunks.StallsExactlyBeforeTails | agent/agent/llm/chunk.go:22-35 | a round of the loop makes no progress if and only if 20000 tails follow |
| LlmChunks.HangsExactlyOnLongTailRuns | agent/agent/llm/chunk.go:20-36 | the loop reaches such a place if and only if the text contains one anywhere |
| LlmChunks.Utf8HasNoLongTailRun | agent/agent/llm/chunk.go:6-11 | valid UTF-8 contains none |
| LlmChunks.ChunkIsGood | agent/agent/llm/chunk.go:22-35 | one chunk of valid UTF-8 is valid, leaves a valid rest, and has at least 19997 bytes unless it is the last |
| LlmChunks.FindChunkEnd | agent/agent/llm/chunk.go:23-32 | the back-off loop finds the chunk's end |
| LlmChunks.SplitContent | agent/agent/llm/chunk.go:12-37 | terminates; the chunks are nonempty, at most 20000 bytes and make up the text; for UTF-8 each is UTF-8 and all but the last have at least 19997 bytes |
| LlmChunks.ReorderedLinesRebuild | agent/agent/llm/sender.go:262-295 | any reordering of the numbered lines rebuilds the message |
| LlmChunks.SendChunked | agent/agent/llm/sender.go:262-295 | the lines sent are bounded, valid UTF-8 if the message is, and rebuild the message in whatever order they arrive |
| GoroutineDump.AtMostCountBlocks | agent/agent/active/GoroutineStack.go:103-112 | for every byte buffer the results are at most the estimated blocks |
| GoroutineDump.PaddedBlock | agent/agent/active/GoroutineStack.go:133-140 | blanks and control characters around a block mean nothing |
| GoroutineDump.PrintIsParsed | agent/agent/active/GoroutineStack.go:133-185 | a printed goroutine is read back with its number, state and text |
| GoroutineDump.DumpIsCollected | agent/agent/active/GoroutineStack.go:65-86 | any list of well-formed goroutines is read back from its dump, in order and in full |
| GoroutineDump.FindBlankLine | agent/agent/active/GoroutineStack.go:117-123 | the first blank line |
| GoroutineDump.TrimBlock | agent/agent/active/GoroutineStack.go:133-140 | both ends are trimmed of bytes up to the space |
| GoroutineDump.ReadId | agent/agent/active/GoroutineStack.go:155-160 | the digits after the prefix as a number, wrapped at 64 bits |
| GoroutineDump.ReadState | agent/agent/active/GoroutineStack.go:165-183 | the text between brackets, if one opens within 30 bytes |
| GoroutineDump.ParseNextBlock | agent/agent/active/GoroutineStack.go:115-186 | the first block parsed, or nothing, and the rest of the buffer |
| GoroutineDump.CollectStacks | agent/agent/active/GoroutineStack.go:65-86 | terminates on every buffer with all parsed blocks, no more than estimated |
| GoroutineDump.EstimateBlocks | agent/agent/active/GoroutineStack.go:103-112 | blank lines without overlap, plus one |
| ServiceMeter.VarianceIsNotNegative | agent/agent/counter/meter/MeterService.go:75-95 | for every run the exact sums satisfy count times square sum ≥ square of the sum |
| ServiceMeter.BucketWraps | agent/agent/counter/meter/MeterService.go:65-95 | for every run each count and sum of the bucket is the exact one wrapped to its width, and exact if and only if it fits |
| ServiceMeter.BucketIsExact | agent/agent/counter/meter/MeterService.go:65-95 | for every run whose squares fit, the sums are exact, the variance input is not negative, and satisfied, tolerated and failed are at most the total, which is the count |
| ServiceMeter.ClassesAre | agent/agent/counter/meter/MeterService.go:82-94 | satisfied, tolerated and failed count the transactions of that class by their bare duration, the limits included |
| ServiceMeter.DurationAdds | agent/agent/counter/meter/MeterService.go:68-95 | a duration adds itself and its square, a negative one nothing |
| ServiceMeter.VarianceSign | agent/agent/counter/meter/MeterService.go:75-95 | while the squares stay below 2^64, the variance input is not negative if and only if they stay below 2^63 |
| ServiceMeter.LongTransactionsWrap | agent/agent/counter/meter/MeterService.go:95-95 | three longest transactions make the variance input negative |
| ServiceMeter.BeyondTheSecondWrap | agent/agent/counter/meter/MeterService.go:95-95 | beyond 2^64 the sign says nothing: an input with a wrong sum of squares and yet no negative variance input |
| ServiceMeter.EntryAdds | agent/agent/counter/meter/MeterService.go:112-131 | with room in the table, a transaction is added to exactly one entry and to the table's sum |
| ServiceMeter.EvictionLoses | agent/agent/counter/meter/MeterService.go:29-30 | a new key in a full table drops an entry, and with it at least one transaction |
| ServiceMeter.EntryStep | agent/agent/counter/meter/MeterService.go:112-131 | with room in the table, a transaction changes the entry of its own key, or begins it, and no other one |
| ServiceMeter.BoundedExactlyIfReset | agent/agent/counter/meter/MeterService.go:175-192 | the table of callers from other projects is bounded exactly after a reset has found some in it |
| ServiceMeter.TableExactlyIfFits | agent/agent/counter/meter/MeterService.go:108-192 | over any run with resets, each of the three tables divides exactly its transactions since the last reset, one entry for each key with the sums over the transactions filed under it, if and only if, being bounded, it had room for all their keys; otherwise its count falls short |
| ServiceMeter.UnknownIsExact | agent/agent/counter/meter/MeterService.go:164-171 | the unknown share is the sum over the transactions of unknown callers since the last reset |
| ServiceMeter.CallersShareEverything | agent/agent/counter/meter/MeterService.go:108-192 | over any run with resets, same-project, other-project and unknown shares add up to the transactions since the last reset if and only if the two tables had room; otherwise their count falls short |
| ServiceMeter.BucketSinceTake | agent/agent/counter/meter/MeterService.go:53-57 | over any run the bucket holds the transactions since it was last taken |
| ServiceMeter.BucketAndSharesAgree | agent/agent/counter/TaskTransaction.go:62-236 | the bucket's count, time and failures equal the sums over the callers if and only if no transaction has ended between the taking of the bucket and the reset of the shares |
| ServiceMeter.MeterService.constructor | agent/agent/counter/meter/MeterService.go:26-36 | empty bucket and tables |
| ServiceMeter.MeterService.Add | agent/agent/counter/meter/MeterService.go:65-173 | the bucket and the caller tables after one transaction |
| ServiceMeter.MeterService.AddToBucket | agent/agent/counter/meter/MeterService.go:68-95 | the bucket after one transaction, at machine width |
| ServiceMeter.MeterService.GetAndResetBucket | agent/agent/counter/meter/MeterService.go:53-57 | the bucket is handed over and a new one takes its place |
| ServiceMeter.MeterService.ResetStat | agent/agent/counter/meter/MeterService.go:175-192 | the tables start again and the bucket is untouched |
| PathPrefix.LookupIsCoherent | agent/agent/appctx/PathPrefix.go:33-56 | if URLs that share a hash have the same first match, one lookup answers as the list does and keeps both caches coherent |
| PathPrefix.CachesAgree | agent/agent/appctx/PathPrefix.go:33-108 | with harmless collisions, over any interleaving of lookups, reconfigurations and evictions the list names URLs as the one configured last and the caches agree with it |
| PathPrefix.LookupsAreUncached | agent/agent/appctx/PathPrefix.go:33-108 | so every lookup returns the first matching prefix of the current list |
| PathPrefix.TransparentExactlyIfHarmless | agent/agent/appctx/PathPrefix.go:33-108 | the exact condition: every run names the URLs by the current list if and only if URLs that share a hash have the same first match, texts that share a hash name all URLs alike, and a text with hash 0 names none |
| PathPrefix.ReadItems | agent/agent/appctx/PathPrefix.go:71-102 | the items of a configuration text, malformed ones skipped |
| PathPrefix.NamedItem | agent/agent/appctx/PathPrefix.go:76-98 | `name@url`, with any white space around the parts, names the URL by what comes before the sign |
| PathPrefix.OtherItems | agent/agent/appctx/PathPrefix.go:76-98 | a URL without the sign is its own name, and an item that lacks a part is void |
| PathPrefix.FirstMatchIs | agent/agent/appctx/PathPrefix.go:42-53 | the first item whose URL is a prefix gives the name |
| PathPrefix.FirstItemWins | agent/agent/appctx/PathPrefix.go:66-102 | a configuration text is read item by item, the first that matches wins, and a void one says nothing |
| PathPrefix.UrlsBelowPrefix | agent/agent/appctx/PathPrefix.go:42-102 | every URL that continues the first configured one goes by its name |
| PathPrefix.PathPrefixParser.constructor | agent/agent/appctx/PathPrefix.go:21-27 | empty list and caches |
| PathPrefix.PathPrefixParser.ParseUrl | agent/agent/appctx/PathPrefix.go:33-56 | the answer and both caches after a lookup |
| PathPrefix.PathPrefixParser.Reconfigure | agent/agent/appctx/PathPrefix.go:58-108 | a new hash replaces the list and clears both caches, the same hash changes nothing |
| TextDictionary.TextsAreConserved | agent/agent/data/DataText.go:113-343 | over any interleaving of threads accepted texts are those sent, buffered and queued, in order; a text is held back only if it was accepted since the last reset or another thread is just offering it |
| TextDictionary.AcceptedOnce | agent/agent/data/DataText.go:113-267 | without evictions and without a reset during an offer, no text is accepted twice between resets |
| TextDictionary.ResetDuringOfferDuplicates | agent/agent/data/DataText.go:113-125 | a reset between the two steps of an offer lets a text in twice: the run |
| TextDictionary.EvictionDuplicates | agent/agent/data/DataText.go:113-125 | an eviction lets a text in twice: the run |
| TextDictionary.DistinctExactlyIfClean | agent/agent/data/DataText.go:113-343 | over any run, no text has been accepted twice since the last reset if and only if the queue has taken none since then that it had already accepted |
| TextDictionary.OfferedText | agent/agent/data/DataText.go:113-267 | an offer that nothing comes between: a cached text changes nothing; any other one is cached and queued, or, refused, leaves no trace |
| TextDictionary.SameKey | agent/agent/data/DataText.go:113-255 | texts count as the same if hash and type are, and all unnamed types are one |
| TextDictionary.BufferStaysBelow | agent/agent/data/DataText.go:269-317 | over any run the buffered length is that of the buffered texts and below its limit, and nothing empty is sent |
| TextDictionary.RoundMovesOn | agent/agent/data/DataText.go:269-343 | a round takes the oldest text; when it is due, or a reset is, only empty texts stay unsent; a reset forgets the caches and nothing else does |
| TextDictionary.QueueDrains | agent/agent/data/DataText.go:269-309 | so many due rounds as there are texts in the queue empty it, and whatever is not sent then is empty |
| TextDictionary.DataText.constructor | agent/agent/data/DataText.go:35-56 | everything empty |
| TextDictionary.DataText.AddHashText | agent/agent/data/DataText.go:257-267 | queued if there is room |
| TextDictionary.DataText.OfferText | agent/agent/data/DataText.go:113-255 | the two steps of an offer with nothing in between: a known hash is held back; an unknown one is cached and queued, or neither |
| TextDictionary.DataText.SendPack | agent/agent/data/DataText.go:311-317 | the buffer is sent and a new one starts |
| TextDictionary.DataText.ResetCaches | agent/agent/data/DataText.go:318-343 | all caches are empty |
| TextDictionary.DataText.ProcessOnce | agent/agent/data/DataText.go:269-309 | one round: a text taken, a full, due or final buffer sent, caches reset |
| TextDictionary.DataText.TakeOne | agent/agent/data/DataText.go:278-286 | a text moves from queue to buffer, and a full buffer is sent |
| ZipBatching.PacksAreConserved | agent/agent/data/ZipPackThread.go:65-163 | over any run packs taken are, in order, those in batches, buffer and queue; each batch counts its records; the buffer is below its maximum |
| ZipBatching.EveryPackIsSomewhere | agent/agent/data/ZipPackThread.go:65-72 | over any run the packs that found room were taken and the others sent directly, in order, each exactly once |
| ZipBatching.RoundHandsOn | agent/agent/data/ZipPackThread.go:93-125 | a batch is handed on exactly when the next pack makes it long enough or finds its oldest pack waiting long enough, or when no pack has come |
| ZipBatching.NoneWaitsTooLong | agent/agent/data/ZipPackThread.go:93-125 | over any run of dated packs, none in the buffer is later than the oldest by the waiting time |
| ZipBatching.ZipPackThread.constructor | agent/agent/data/ZipPackThread.go:51-58 | everything empty |
| ZipBatching.ZipPackThread.AddPack | agent/agent/data/ZipPackThread.go:65-72 | queued, or sent directly when the queue is full |
| ZipBatching.ZipPackThread.SendBuffer | agent/agent/data/ZipPackThread.go:127-163 | a batch of everything buffered, or nothing |
| ZipBatching.ZipPackThread.AppendPack | agent/agent/data/ZipPackThread.go:111-125 | buffered, and a batch when full or after the waiting time |
| ZipBatching.ZipPackThread.RunOnce | agent/agent/data/ZipPackThread.go:93-107 | the next pack is appended, or after a quiet time the buffer is sent |
| LineBuffer.StepConserves | agent/logsink/LineBuffer.go:68-115 | while a nonempty buffer is in joining mode, a step hands out and keeps exactly what there was plus the line, and the mode invariant holds again |
| LineBuffer.LinesAreConserved | agent/logsink/LineBuffer.go:68-115 | over any run lines handed out followed by lines buffered are the nonempty lines that came in |
| LineBuffer.TabLinesAreJoined | agent/logsink/LineBuffer.go:68-115 | over any run every text handed out joins one or more lines that start with a tab, every line handed out by itself starts otherwise, and anything but a tab line empties the buffer |
| LineBuffer.TextsAreWhole | agent/logsink/LineBuffer.go:77-103 | without empty lines and flushes a text is never cut: it is handed out just before the line that ends it |
| LineBuffer.TextAddsUp | agent/logsink/LineBuffer.go:77-88 | a text is its lines, each with a line feed |
| LineBuffer.Buffer.constructor | agent/logsink/LineBuffer.go:18-23 | empty, not joining |
| LineBuffer.Buffer.Append | agent/logsink/LineBuffer.go:68-103 | the texts returned and the new buffer, in each branch |
| LineBuffer.Buffer.FlushBuffer | agent/logsink/LineBuffer.go:105-115 | the buffered text is returned and the buffer is empty |

## Left out

- Instrumentation wrappers, middleware, kube client, pprof, system probes, configuration files and logging: thin wrappers or I/O.
- The internals of `golib` (hash functions, `hexa32`, queues, linked maps, pack serialisation, gzip) and AES: not part of this model; they are parameters with stated laws, bounded sequences, or maps that may evict.
- SqlTokens.LiteralInsensitive: a quote behind a colon opens no literal for the lexer, so what follows it counts as text.
- SqlTokens.EveryStatementIsTokens: the tokens end where a literal meets a PHP backslash with nothing to escape, at the end or before a zero byte.
- SqlCache.SqlTextCache.EscapeLiteral: the eviction that a `Put` may cause is a separate event of the run, and the comment setting is fixed.
- TraceContext.TraceCtx.UpdateMtrace: the two descriptive header values are parameters, and the agent is not disabled; all nodes of a path share one configuration.
- TraceContext.TraceCtx.GetMTrace: the disabled agent and the case without a trace context, which both return no headers, are left out.
- HeaderText.SplitFour: `stringutil.Split` and `Tokenizer` are taken to split at every separator; white space is recognised byte by byte.
- Failover.AtLeastOnce: retry is switched on; the writer's own flushes of a full buffer, which can only deliver more, are left out.
- Failover.TcpSender.OpenSession: opening is one step; dialling and the key handshake are left out, and the key agreed on is a parameter.
- Failover.TcpSender.SendFrame: the loop over the bytes of one frame is one step.
- Failover.TcpSender.Iterate: waiting for a connection is left out, since opening is an event of the run, and so is the notice sent for an oversized pack.
- LargeCollector.LosesNothing: steps are values, so what a caller changes in a step between push and pop, apart from its index and parent, is not followed; the same holds for the split and the circular collector.
- LargeCollector.ProfileLargeCollector.AddStep: the maximum is positive, since with 0 the source panics here; the same holds for every method of the three collectors that stores a step, and for the runs. Index counters do not wrap at 32 bits.
- SplitTxCollector.ProfileSplitTxCollector.Send: the name of the child, and the text handed to the dictionary for the first child, are left out.
- `AddHeavy` and `AddTail` of the large, split and circular collectors repeat `Add`; `JustAdd`, `Append` and the byte encodings are left out, and so are `ProfileNormalCollector.Push`, which indexes a zero-length slice, and `ProfileLargeCollector.Length`, which counts steps twice.
- NormalCollector.ProfileNormalCollector.GetSteps: `sort.Slice` is modelled by one particular sort, of which callers know only that the result is sorted and a permutation.
- LlmAccounting.MeterLLM.constructor: the five maps of per-key statistics are left out.
- LlmAccounting.MeterLLM.GetBucketReset: hands over the two counters; the five maps of per-key statistics are left out.
- LlmAccounting.TaskLLM.Process: the six reports of per-key statistics sent at every run are left out.
- LlmPublish.PublishedExactlyOnce: a call is marked manual when it is created, as `llm.Start` and `llm.Bind` do.
- LlmPublish.LLMState.Publish: the per-key statistics (`AddPerf`, `AddTokenUsage`, `AddFeature`, `AddApiStatus`, errors by kind), message texts and the dispatch of the step status are left out.
- LlmPublish.LLMState.PublishMeters: the per-key statistics are left out.
- GoroutineDump.CollectStacks: models the slice variant; the map and callback variants run the same loop, and capturing the stacks is left out.
- ServiceMeter.MeterService.constructor: the hit map and the arrival counter are left out.
- ServiceMeter.MeterService.Add: minimum and maximum time, the hit map, the times by kind of call and the 32-bit wrap of table entries are left out.
- ServiceMeter.MeterService.AddToBucket: minimum and maximum time, the hit map and the times by kind of call are left out.
- TextDictionary.DataText.OfferText: the refusal by the queue and the removal from the cache that follows it are one step.
- TextDictionary.DataText.ProcessOnce: clock, connection and date decide `due` and `resetDue`, which are parameters.
- ZipBatching.ZipPackThread.SendBuffer: states a batch at the moment of hand-off by the packs in it; their bytes, compression and header are left out, and so is that the bytes share the reused buffer when they are not compressed; waiting adds and shutdown are left out.
- LineBuffer.Buffer.Append: models `AppendLine`; the source's other method `Append` returns old text without resetting it.
- URL pattern detection, whose caches are not coherent, and hit-map events: not part of this model.
