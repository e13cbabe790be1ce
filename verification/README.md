# Kubedash: proofs about its vendored libraries

Kubedash forwards requests to the Kubernetes API and serves a user interface; what can go wrong in subtle ways lies in
the libraries it ships.  This project models four of them in Dafny and proves what they are for.

* **The gin router and path cleaner.**  A compressed trie that is rewritten in place (edges split, wildcard nodes
  added, siblings reordered by priority) answers every request exactly as the list of registered patterns would.
  `RoutePattern` says what a pattern matches, independent of any tree; `RouteTrie` holds the tree as a value with what
  addRoute, insertChild and getValue compute; `RouteTrieShape`, `RouteTrieRoutes`, `RouteTrieLookup` and
  `RouteTrieCounts` prove its invariants; `Router` states the results for all runs of registrations, and
  `RouterConflicts` which registrations are accepted; `CaseInsensitive` is the second lookup; `RouterNode` and
  `MethodTree` are the node and the tree as objects that change in place, proved equal to the values.  `CleanPath`
  proves the lazily buffered loop equal to a stack of path elements, and `CleanPathRules` the rules of its
  documentation as equations.
* **The YAML package.**  `YamlEvents` states the event grammar twice, as trees and as a recognizer, and proves the two
  equal.  `YamlParse` is the parser's pushdown machine on values; `YamlParseSafety` and `YamlParseProgress` hold for
  every token sequence.  `YamlText` is the token grammar, `YamlTextParse` and `YamlStreamParse` say what the parser
  does on its texts, and `YamlStreamExact`, with a count of brackets in `YamlParseBrackets`, which of them it reads;
  `YamlParseOnly` is the converse, that it reads nothing else. `YamlParser` is the machine in place; each of its
  methods is proved to be the production of its name on values. `ScanQueue`, `ScanSteps` and `YamlScanner` model the
  scanner's token queue with its retroactive insertions, and `ScanFlow` what it makes of flow collections as they are
  written; `YamlEmit` and `YamlEmitter` are the emitter's state machine and lookahead.  `Utf8`, `QuotedScalar`,
  `QuotedText`, `QuotedWriter` and `QuotedScanner` are about double-quoted scalars: what a text denotes is what the
  scanner reads, and what has been written is read back.
* **The quantile summary** (`QuantileSummary`, `QuantileRank`, `QuantileCompress`, `QuantileStream`): samples merged
  and compressed in place, for an arbitrary error function; bounds for the ranks of the answers.
* **The token bucket** (`TokenBucket`): lazy refill by whole ticks, with caps and debt, against a bucket that is
  refilled at every tick (`EagerBucket`).

Where the source changes objects step by step, so do the classes here.  Each of their methods is proved equal to a
function on values or against an outright statement of what it does, and the theorems are about runs of these
functions.  A panic or error of the source is a result (`None`, `null`, `false`, an error code); what little is assumed
of callers is listed under "Left out".  `Common` holds the option type and arithmetic on minima and maxima.

`dafny verify dfyconfig.toml` checks everything.

## Where the code departs from its documentation

The code is modelled as it is.  Each difference has a lemma, and where it breaks a promise the exact condition; only
for the ranks of the quantile summary the condition given is sufficient and not shown to be necessary.

* A route with a segment behind a catch-all is accepted once the catch-all itself has been registered, not before, and
  is never served: `RouterConflicts.BehindCatchAllIsAccepted`, `Router.ReachableIffCatchAllLast`.
* The root's maxParams misses the first registration.  It does no harm, because lookups only read the counts below the
  root: `Router.RootMaxParams`.
* The bucket's adjust returns early when full and leaves the tick count behind, so a full bucket that has been idle is
  refilled for that time after the next take.  A burst of twice the capacity is possible, and a wait may be longer than
  needed: `TokenBucket.TwiceTheCapacity`, `TokenBucket.OneCapacityIff`, `TokenBucket.WaitIsLeast`.
* The bounds for ranks need an error that wanes with the rank (`QuantileRank.MergeRanked`).  For the error function of
  low quantiles, which grows, they fail: `QuantileCompress.GrowingErrorFails`.
* A trailing slash is kept in longer paths and dropped from paths of two bytes: `CleanPath.TrailingSlashIff`,
  `CleanPathRules.SlashesMerge`.
* The panic "should not happen" of yaml_parser_save_simple_key can happen: `YamlScanner.PanicIffLevelAhead`,
  `YamlScanner.PanicIsReachable`.
* A double-quoted scalar that the writer folds without indentation may have a line that begins like a document
  indicator, which the scanner refuses: `QuotedScanner.RoundTrip` has the exact condition and
  `QuotedScanner.MarginFails` an instance.  The emitter never gets there, since it asks for an indent of at least 2
  (`YamlEmitter.Emitter.ProcessScalar`).
* In a flow sequence the parser skips the token behind a KEY without a node, whatever it is, and in a block mapping it
  does not accept VALUE without KEY, although its grammar comment allows both.  Two shapes of the first are read all
  the same.  `YamlStreamExact.StreamIsReadIff` gives the exact condition, `YamlText.Readable`;
  `YamlStreamExact.AbsentKeyFails` and `YamlStreamExact.LoneValueFails` are streams that fail.  Without such a skipped
  token, nothing but the grammar is read: `YamlParseOnly.OnlyStreamsAreRead`.
* The start event of an implicit document is not marked implicit: `YamlStreamExact.NoDocumentIsMarkedImplicit`.

## Model

| member | source | states |
|---|---|---|
| Router.GetValueIsCorrect | Godeps/_workspace/src/github.com/gin-gonic/gin/tree.go:362-476 | After any accepted sequence of registrations, looking a path up yields handlers and parameters exactly when some registered pattern matches the path, and then they are those of that pattern, in pattern order |
| Router.MatchIsUnique | Godeps/_workspace/src/github.com/gin-gonic/gin/tree.go:362-476 | At most one of the registered patterns matches a given path |
| Router.Build | Godeps/_workspace/src/github.com/gin-gonic/gin/tree.go:123-242 | Whatever registrations were accepted, the tree stores exactly those routes, with pairwise different patterns, and keeps its shape and its counters |
| RouterConflicts.AddRouteIff | Godeps/_workspace/src/github.com/gin-gonic/gin/tree.go:123-355 | A registration is accepted if and only if, compared with every registered pattern, it repeats none, has no wildcard where one of them has another or a literal, and is well-formed from where it parts from one of them; everything else panics |
| RouterConflicts.BuildIff | Godeps/_workspace/src/github.com/gin-gonic/gin/tree.go:123-355 | A whole list of routes can be registered if and only if that holds of each route beside those before it |
| Router.ReachableIffCatchAllLast | Godeps/_workspace/src/github.com/gin-gonic/gin/tree.go:362-476 | A registered route is served for some path if and only if its catch-all, if it has one, is its last segment |
| RouterConflicts.BehindCatchAllIsAccepted | Godeps/_workspace/src/github.com/gin-gonic/gin/tree.go:123-355 | For every name and tail: a route with a segment behind a catch-all is accepted when the catch-all itself has been registered and only then, and by Router.ReachableIffCatchAllLast it is never served |
| RouterConflicts.StaticRoutesAreAccepted | Godeps/_workspace/src/github.com/gin-gonic/gin/tree.go:123-242 | A list of patterns without wildcards is accepted, in any order, if and only if no pattern occurs twice |
| Router.FindFoldIsCorrect | Godeps/_workspace/src/github.com/gin-gonic/gin/tree.go:482-596 | Found if and only if a registered route matches up to case, and the bytes returned are such a route with its parameter values |
| Router.FindFoldOnStaticRoutes | Godeps/_workspace/src/github.com/gin-gonic/gin/tree.go:482-596 | On wildcard-free routes: found if and only if a registered route equals the path up to case, and the answer is such a route |
| MethodTree.Tree.AddRoute | Godeps/_workspace/src/github.com/gin-gonic/gin/gin.go:179-201 | The tree of a method against the plain list of its routes: the registration succeeds if and only if the pattern begins with a slash and is acceptable beside the listed ones, and then the list grows by it |
| MethodTree.Tree.GetValue | Godeps/_workspace/src/github.com/gin-gonic/gin/tree.go:362-476 | A found request is answered by a listed route that matches it; a request not found is matched by none |
| MethodTree.Tree.FixCase | Godeps/_workspace/src/github.com/gin-gonic/gin/tree.go:482-596 | Found if and only if a listed route matches up to case |
| RouterNode.Node.AddRoute | Godeps/_workspace/src/github.com/gin-gonic/gin/tree.go:123-242 | In place: addRoute on a root, empty or not |
| RouterNode.Node.GetValue | Godeps/_workspace/src/github.com/gin-gonic/gin/tree.go:362-476 | The loop over nodes computes the lookup function; the slice never outgrows its capacity and no parameter is lost to a reallocation |
| Router.RootMaxParams | Godeps/_workspace/src/github.com/gin-gonic/gin/tree.go:123-242 | For every accepted run: the children of the root count the largest number of wildcards of all routes, the root itself that of all routes but the first |
| YamlParseSafety.EventsBeginAStream | Godeps/_workspace/src/gopkg.in/v2/yaml/parserc.go:62-170 | For every token sequence and any number of steps: no empty stack is popped, no token is read that is not there, and the events so far begin a stream |
| YamlParseSafety.CompleteAtTheEnd | Godeps/_workspace/src/gopkg.in/v2/yaml/parserc.go:62-170 | Without an error, the end state is reached if and only if the events are a complete stream, and then states and marks are empty |
| YamlParseProgress.EveryRunEnds | Godeps/_workspace/src/gopkg.in/v2/yaml/parserc.go:62-170 | After at most nine steps per token the stream has ended or an error has been reported |
| YamlParseProgress.NothingLost | Godeps/_workspace/src/gopkg.in/v2/yaml/parserc.go:62-170 | The aliases, anchors and scalar values of the events are those of the tokens consumed, in the same order |
| YamlStreamExact.StreamIsReadIff | Godeps/_workspace/src/gopkg.in/v2/yaml/parserc.go:5-41 | For every stream of the grammar in the comment, with directives, implicit and explicit documents: the parser reads it to exactly its events if and only if it is readable; otherwise every run ends in an error.  The events are written out from the texts, down to the two implicit flags of scalars and the tags that the directives expand |
| YamlParseOnly.OnlyStreamsAreRead | Godeps/_workspace/src/gopkg.in/v2/yaml/parserc.go:62-170 | The converse: whatever tokens the parser reads to the end without skipping one behind an absent key are a readable stream of that grammar, perhaps with tokens behind STREAM-END; everything else is an error |
| YamlEvents.AcceptedIffStream | Godeps/_workspace/src/gopkg.in/v2/yaml/parserc.go:5-41 | The event recognizer with its stack accepts a sequence if and only if it is STREAM-START (DOCUMENT-START node DOCUMENT-END)* STREAM-END of trees, where mappings hold pairs |
| YamlEvents.ReadIffPrefix | Godeps/_workspace/src/gopkg.in/v2/yaml/parserc.go:5-41 | What it reads without complaint is exactly what begins such a stream |
| YamlParser.Parser.Parse | Godeps/_workspace/src/gopkg.in/v2/yaml/parserc.go:62-73 | In place: each call is one step of the machine; at every point the events begin a stream, at the end they are one and the stacks are empty |
| YamlScanner.Scanner.FetchNextToken | Godeps/_workspace/src/gopkg.in/v2/yaml/scannerc.go:665-838 | How it ends, exactly: an error for a lost or required key, a misplaced indicator or a failed read, the panic for a key in the column of a level where none is allowed, or success; then the whole state is that of the step, whose tokens, keys and levels ScanSteps.FetchedTokens and the rows beside it spell out |
| YamlScanner.Scanner.FetchMoreTokens | Godeps/_workspace/src/gopkg.in/v2/yaml/scannerc.go:626-662 | When it succeeds there is a head, and no potential key can still insert a token in front of it; what has been made is still what the steps make of the lexemes read, with those read now behind the others |
| YamlScanner.Scanner.ScanStream | Godeps/_workspace/src/gopkg.in/v2/yaml/scannerc.go:571-597 | A whole run up to STREAM-END: all tokens made are exactly those that the steps make of the lexemes read, one after the other, whenever no lexeme begins before the end of another.  In any case they are the lexemes, each once and in order, with only made tokens woven in, and no prefix closes a block collection that it has not opened |
| YamlScanner.FailsExactly | Godeps/_workspace/src/gopkg.in/v2/yaml/scannerc.go:665-987 | Every way to fail, spelled out: a key that must become one is more than 1024 characters back or on an earlier line, or is given up; reading fails; or -, ? or a VALUE without key stands in the block context where none is allowed |
| ScanSteps.FetchedTokens | Godeps/_workspace/src/gopkg.in/v2/yaml/scannerc.go:665-1431 | Exactly the tokens a lexeme makes: one BLOCK-END for each level deeper than its column; for VALUE behind a live key, KEY right in front of the token of the key, and BLOCK-MAPPING-START in front of that exactly in the block context and deeper than the level; without a live key no KEY; a block start exactly where -, ? or such a VALUE stands deeper |
| ScanSteps.FetchedKeys | Godeps/_workspace/src/gopkg.in/v2/yaml/scannerc.go:867-934 | Exactly the potential keys behind a lexeme: what may begin a key is saved with the number of its own token where a key is allowed, required exactly at the level of its collection; all else gives up the key of its level |
| ScanSteps.FetchedLevels | Godeps/_workspace/src/gopkg.in/v2/yaml/scannerc.go:937-987 | Exactly the levels: where a collection opens its column becomes the level, deeper ones are gone, and outside of documents there is none |
| ScanFlow.StreamScanned | Godeps/_workspace/src/gopkg.in/v2/yaml/scannerc.go:1105-1336 | For every flow collection, however nested, with or without ? in front of its keys, in one line within 1024 characters: the scanner makes exactly the tokens of the grammar, with every KEY in its place |
| ScanFlow.FlowStreamIsRead | Godeps/_workspace/src/gopkg.in/v2/yaml/parserc.go:5-41 | Scanner and parser together: such a text is read to the events of the collection if and only if it is readable |
| YamlScanner.PanicIffLevelAhead | Godeps/_workspace/src/gopkg.in/v2/yaml/scannerc.go:867-880 | Some next token in the same line hits the "should not happen" panic if and only if, in the block context with no key allowed, one of the levels is a column ahead that is reached without losing a required key; the first token of a line never hits it |
| YamlScanner.PanicIffLeftOfIndent | Godeps/_workspace/src/gopkg.in/v2/yaml/scannerc.go:867-880 | While no key is required, that is so if and only if the last token ended at or left of the current indent |
| YamlScanner.PanicIsReachable | Godeps/_workspace/src/gopkg.in/v2/yaml/scannerc.go:867-880 | A run that ends in the panic: " - - [" in the first line and "]*x" in the second, where the alias stands in the column of the first dash |
| YamlEmitter.Emitter.Emit | Godeps/_workspace/src/gopkg.in/v2/yaml/emitterc.go:113-127 | As long as the events passed in begin a stream and are fit to be emitted there is no error and no empty stack is popped; nothing is lost or reordered; when the stream is complete the queue and both stacks are empty |
| YamlEmitter.Emitter.StateMachine | Godeps/_workspace/src/gopkg.in/v2/yaml/emitterc.go:211-269 | From every state that can occur: an error if and only if the event grammar does not allow the event next, or its directives or its missing tag are refused |
| YamlEmitter.Emitter.AfterDocumentEnd | Godeps/_workspace/src/gopkg.in/v2/yaml/emitterc.go:211-269 | After each DOCUMENT-END both stacks are empty, flow_level is 0 and indent is -1 |
| QuotedScanner.RoundTrip | Godeps/_workspace/src/gopkg.in/v2/yaml/scannerc.go:2304-2557 | For every valid UTF-8 value and every setting of the writer, what is written is read back exactly and the scanner stops behind the closing quote, if and only if the layout of the value has no line folded without indentation that begins like a document indicator; with an indentation, or without folds, always |
| QuotedText.TextIsScanned | Godeps/_workspace/src/gopkg.in/v2/yaml/scannerc.go:2304-2557 | For every double-quoted text of YAML 1.1, sections 5.7 and 9.1.1, wherever it stands: characters, all escapes, folded lines with blanks and blank lines, separators and escaped line breaks are scanned to what they denote, and nothing behind the closing quote is touched, unless a line at the margin begins like a document indicator (section 5.6), which is an error |
| QuantileStream.Stream.Query | Godeps/_workspace/src/github.com/beorn7/perks/quantile/stream.go:128-145 | Before a flush the answer has the rank q times n with its fraction cut off, or a panic exactly if there is none; after one it is the last sample within q times n rounded up and half the error, and with no error allowed it has exactly the rank q times n rounded up |
| QuantileStream.Stream.Count | Godeps/_workspace/src/github.com/beorn7/perks/quantile/stream.go:174-176 | Exactly the number of inserts since the last reset, however they are split between buffer and summary |
| QuantileStream.ExactAnswer | Godeps/_workspace/src/github.com/beorn7/perks/quantile/stream.go:248-261 | With an error function that allows nothing, query answers with the observation of rank q times n rounded up, kept within 1 and n |
| QuantileStream.AnswerRank | Godeps/_workspace/src/github.com/beorn7/perks/quantile/stream.go:248-261 | With a waning error function, the rank of the answer is at most the target, and at least the target less the error allowed where the answer stands |
| QuantileSummary.MergeSummarizes | Godeps/_workspace/src/github.com/beorn7/perks/quantile/stream.go:210-286 | Merging a sorted batch and then compressing, as a flush does, keeps a summary true: sorted, its widths summing to n, its partial sums below the true ranks, its values observed and its last value the maximum |
| QuantileRank.MergeRanked | Godeps/_workspace/src/github.com/beorn7/perks/quantile/stream.go:210-286 | For error functions that wane with the rank, as that for high quantiles: merge and compress keep every width and delta within the error, and with that the upper bounds of all ranks |
| QuantileRank.RankUpperBound | Godeps/_workspace/src/github.com/beorn7/perks/quantile/stream.go:210-242 | The number of observations below a sample is less than the widths up to it and its delta |
| QuantileSummary.RankLowerBound | Godeps/_workspace/src/github.com/beorn7/perks/quantile/stream.go:210-286 | The widths up to sample i are a lower bound on the number of observations not above its value |
| QuantileCompress.CompressIsTight | Godeps/_workspace/src/github.com/beorn7/perks/quantile/stream.go:263-286 | After compress no two neighbours could be joined: together they exceed the error allowed in front of the second |
| TokenBucket.IssuedSinceCreation | Godeps/_workspace/src/github.com/juju/ratelimit/ratelimit.go:156-221 | Tokens issued since creation are at most capacity plus quantum times the ticks elapsed plus the outstanding debt |
| TokenBucket.WindowBound | Godeps/_workspace/src/github.com/juju/ratelimit/ratelimit.go:209-221 | In any window takeAvailable grants at most twice the capacity plus the refill, and at most once the capacity plus the refill if the level at its start is below capacity or its tick count current |
| TokenBucket.OneCapacityIff | Godeps/_workspace/src/github.com/juju/ratelimit/ratelimit.go:209-221 | One capacity plus the refill bounds every run from a level if and only if the level is below capacity or its tick count is current |
| TokenBucket.WaitIsLongEnough | Godeps/_workspace/src/github.com/juju/ratelimit/ratelimit.go:181-205 | After exactly the returned wait, adjusting makes avail non-negative |
| TokenBucket.WaitIsLeast | Godeps/_workspace/src/github.com/juju/ratelimit/ratelimit.go:181-205 | No earlier time would do, if and only if the bucket was below capacity or its tick count was current |
| EagerBucket.LazyIsEager | Godeps/_workspace/src/github.com/juju/ratelimit/ratelimit.go:156-221 | The lazy bucket answers every run of take and takeAvailable exactly as a bucket to which every tick adds a quantum, unless it is asked while full with an old tick count |
| TokenBucket.RequestBalances | Godeps/_workspace/src/github.com/juju/ratelimit/ratelimit.go:156-221 | An equation: tokens taken and level left are together the old level and a quantum for each tick counted, up to the capacity |
| CleanPath.CleanPath | Godeps/_workspace/src/github.com/gin-gonic/gin/path.go:21-110 | The cursor loop with its lazily allocated buffer returns the specification: split at slashes, fold through a stack, render with the trailing-slash rule; all indices are in range, and the result is at most one byte longer |
| CleanPathRules.SlashesMerge | Godeps/_workspace/src/github.com/gin-gonic/gin/path.go:11-21 | Rule 1: two slashes are as good as one, exactly unless a path of one element loses its last slash |
| CleanPathRules.ParentIsDropped | Godeps/_workspace/src/github.com/gin-gonic/gin/path.go:11-21 | Rule 3: an element and .. behind it make no difference, with the same exception |
| CleanPath.CleanIsCanonical | Godeps/_workspace/src/github.com/gin-gonic/gin/path.go:21-110 | Every result starts with a slash and has no empty, "." or ".." element but for one trailing slash |
| CleanPath.CleanIsIdempotent | Godeps/_workspace/src/github.com/gin-gonic/gin/path.go:21-110 | Cleaning twice is cleaning once, for every input |
| RouterConflicts.InsertFreshIff | Godeps/_workspace/src/github.com/gin-gonic/gin/tree.go:244-355 | Below a fresh node insertChild accepts exactly the well-formed rests of patterns |
| RouteTrieRoutes.WalkAdds | Godeps/_workspace/src/github.com/gin-gonic/gin/tree.go:123-242 | One registration adds exactly its own pattern with its handlers: splitting edges, appending children and reordering siblings leave every other route as it was |
| RouteTrieRoutes.WalkRefusesDuplicates | Godeps/_workspace/src/github.com/gin-gonic/gin/tree.go:231-236 | Registering a stored pattern again panics |
| RouteTrieShape.WalkKeepsShape | Godeps/_workspace/src/github.com/gin-gonic/gin/tree.go:123-242 | The structural invariant survives a registration: distinct index bytes, one per indexed child, one child below a wildcard parent, catch-all pairs |
| RouteTrieCounts.WalkPriorities | Godeps/_workspace/src/github.com/gin-gonic/gin/tree.go:96-242 | After a registration every priority is the number of handlers in its subtree and children stand in non-increasing priority |
| RouteTrieCounts.BumpPriorities | Godeps/_workspace/src/github.com/gin-gonic/gin/tree.go:96-119 | Moving a child forward after counting it restores the order of its siblings |
| RouteTrieCounts.WalkMaxParams | Godeps/_workspace/src/github.com/gin-gonic/gin/tree.go:123-242 | Below the entered node maxParams stays exact: own wildcard plus the largest count of a child |
| RouteTrieCounts.MaxParamsBound | Godeps/_workspace/src/github.com/gin-gonic/gin/tree.go:398-442 | maxParams of a node is at least the number of wildcards left on any route through it |
| RouteTrieLookup.LookupFinds | Godeps/_workspace/src/github.com/gin-gonic/gin/tree.go:362-476 | If a stored pattern matches, the lookup stops at that very route with its handlers and parameters |
| RouteTrieLookup.LookupSound | Godeps/_workspace/src/github.com/gin-gonic/gin/tree.go:362-476 | Whatever the lookup answers is a stored route whose pattern matches, with the parameters of the match |
| RouteTrieCounts.BumpPassesLower | Godeps/_workspace/src/github.com/gin-gonic/gin/tree.go:96-119 | The child moves past exactly those in front of it that have a lower priority now |
| Router.IndexIsFirstByte | Godeps/_workspace/src/github.com/gin-gonic/gin/tree.go:123-242 | Wherever indices is used, indices[i] is the first byte of every route suffix stored under children[i] |
| RouterNode.CountWildcards | Godeps/_workspace/src/github.com/gin-gonic/gin/tree.go:62-74 | The loop over the bytes counts the wildcard characters, saturating at 255 |
| RouterNode.Node.IncrementChildPrio | Godeps/_workspace/src/github.com/gin-gonic/gin/tree.go:96-119 | In place: the child and its index byte move in front of the siblings of smaller priority, everything else keeps its order |
| RouterNode.Node.Split | Godeps/_workspace/src/github.com/gin-gonic/gin/tree.go:146-170 | In place: the edge is split, and the new lower node takes over children, indices, handlers and the larger maxParams below |
| RouterNode.Node.Walk | Godeps/_workspace/src/github.com/gin-gonic/gin/tree.go:133-238 | In place: the walk leaves exactly the tree of the registration function, and reports failure exactly where that panics |
| RouterNode.Node.InsertBelow | Godeps/_workspace/src/github.com/gin-gonic/gin/tree.go:244-355 | In place: hanging the rest of a pattern below a node gives the nodes of the insertion function, or fails with it |
| RouterNode.Node.Save | Godeps/_workspace/src/github.com/gin-gonic/gin/tree.go:398-405 | Saving a parameter extends the slice within its capacity and drops no saved parameter, as long as the bound on maxParams holds |
| RouterNode.Node.FindCaseInsensitivePath | Godeps/_workspace/src/github.com/gin-gonic/gin/tree.go:482-596 | The loop with its recursion over candidate children computes the case-insensitive search |
| CaseInsensitive.FindFoldFinds | Godeps/_workspace/src/github.com/gin-gonic/gin/tree.go:482-596 | If a stored route matches up to letter case, the case-insensitive search succeeds, also where both cases of a byte branch |
| CaseInsensitive.FindFoldSound | Godeps/_workspace/src/github.com/gin-gonic/gin/tree.go:482-596 | What the search returns is the spelling of a stored route that matches up to letter case |
| CaseInsensitive.LowerAlike | Godeps/_workspace/src/github.com/gin-gonic/gin/tree.go:482-486 | Two bytes agree up to case if they are equal or the two cases of one ASCII letter |
| CleanPath.BufApp | Godeps/_workspace/src/github.com/gin-gonic/gin/path.go:113-123 | Writing one byte, with the buffer allocated and filled only at the first difference, gives the same text as always writing it |
| CleanPath.Backtrack | Godeps/_workspace/src/github.com/gin-gonic/gin/path.go:64-81 | The scan back to the previous slash removes exactly the last element of the stack |
| CleanPath.TrailingSlashIff | Godeps/_workspace/src/github.com/gin-gonic/gin/path.go:44-104 | Exactly when the result ends in a slash, and that a path of two bytes loses it |
| CleanPathRules.DotIsDropped | Godeps/_workspace/src/github.com/gin-gonic/gin/path.go:11-21 | Rule 2: an element . makes no difference, with the same exception |
| CleanPathRules.ParentAtEnd | Godeps/_workspace/src/github.com/gin-gonic/gin/path.go:11-21 | The same at the end of a path |
| CleanPathRules.RootHasNoParent | Godeps/_workspace/src/github.com/gin-gonic/gin/path.go:11-21 | Rule 4: .. at the beginning makes no difference |
| CleanPathRules.ElementIsKept | Godeps/_workspace/src/github.com/gin-gonic/gin/path.go:11-21 | Any other element stands behind the clean path of what is in front of it |
| YamlParseSafety.NextFits | Godeps/_workspace/src/gopkg.in/v2/yaml/parserc.go:62-170 | One call of the parser keeps the correspondence between the states and marks stacks and the frames of the event grammar |
| YamlParseSafety.StateMachineAdvances | Godeps/_workspace/src/gopkg.in/v2/yaml/parserc.go:93-170 | Every production, from every state that can occur, emits an event the grammar allows next or reports an error |
| YamlParseBrackets.StateMachineKeeps | Godeps/_workspace/src/gopkg.in/v2/yaml/parserc.go:93-170 | Every production: marks left minus opening plus closing tokens consumed never decreases, so a closing token lost stays lost |
| YamlTextParse.TextIsRead | Godeps/_workspace/src/gopkg.in/v2/yaml/parserc.go:360-993 | For every way to present a node as tokens: if the text is readable, the parser produces the events of the node and stops right behind it; if not, it comes to an error or to a bracket it loses |
| YamlTextParse.AbsentKeyRead | Godeps/_workspace/src/gopkg.in/v2/yaml/parserc.go:834-891 | In a flow sequence a key without a node is read, with the rest of the sequence, if VALUE with nothing behind it or the last comma follows |
| YamlTextParse.AbsentKeyBreaks | Godeps/_workspace/src/gopkg.in/v2/yaml/parserc.go:834-891 | In all other shapes the token that is skipped is missed: four steps later there is an error, or the skipped token is the closing bracket, which is lost at once |
| YamlTextParse.LoneValueBreaks | Godeps/_workspace/src/gopkg.in/v2/yaml/parserc.go:676-722 | VALUE without KEY is an error, at the beginning of a block mapping and later |
| YamlText.TagMeans | Godeps/_workspace/src/gopkg.in/v2/yaml/parserc.go:432-454 | For every list of directives: a tag without a handle is what it says; with one, it is the first prefix declared for the handle, or that of "!" or "!!" if they are not declared, with the suffix behind it; and anything else is an undefined handle |
| YamlStreamParse.DocumentsRead | Godeps/_workspace/src/gopkg.in/v2/yaml/parserc.go:199-332 | From any point between two documents: to the end with the events of the rest, or the run breaks, as the texts are readable or not |
| YamlStreamExact.BrokenNeverEnds | Godeps/_workspace/src/gopkg.in/v2/yaml/parserc.go:62-170 | After an error or a lost bracket a run never reaches the end of the stream |
| YamlStreamExact.AbsentKeyFails | Godeps/_workspace/src/gopkg.in/v2/yaml/parserc.go:834-849 | The five tokens of "[ KEY ]" in a stream: from the first step on, every long enough run ends in an error |
| YamlStreamExact.AbsentKeyIsReadThere | Godeps/_workspace/src/gopkg.in/v2/yaml/parserc.go:834-849 | The streams of "[ KEY VALUE ]" and "[ KEY , ]" are read to their events |
| YamlStreamExact.LoneValueFails | Godeps/_workspace/src/gopkg.in/v2/yaml/parserc.go:676-722 | The stream of a block mapping that begins with VALUE ends in an error |
| YamlStreamExact.NoDocumentIsMarkedImplicit | Godeps/_workspace/src/gopkg.in/v2/yaml/parserc.go:222-236 | In no run does the start event of a document carry the implicit flag |
| YamlStreamParse.DirectivesRead | Godeps/_workspace/src/gopkg.in/v2/yaml/parserc.go:1014-1096 | Directives are collected in order up to DOCUMENT-START, and the default handles are added |
| YamlParser.Parser.ParseDocumentStart | Godeps/_workspace/src/gopkg.in/v2/yaml/parserc.go:199-277 | In place: extra document ends, implicit and explicit documents, the end of the stream |
| YamlParser.Parser.ParseNode | Godeps/_workspace/src/gopkg.in/v2/yaml/parserc.go:360-574 | In place: aliases, properties in either order, tag resolution and all kinds of content |
| YamlParser.Parser.ProcessDirectives | Godeps/_workspace/src/gopkg.in/v2/yaml/parserc.go:1014-1073 | The loop over directives: duplicates and wrong versions are errors, the defaults are added last |
| YamlParser.Parser.AppendTagDirective | Godeps/_workspace/src/gopkg.in/v2/yaml/parserc.go:1076-1096 | A handle declared already is refused or, for the defaults, left as it is |
| ScanQueue.StateSave | Godeps/_workspace/src/gopkg.in/v2/yaml/scannerc.go:867-897 | Saving a potential key for the token appended next keeps the whole invariant, with or without a new flow level |
| ScanQueue.StateTake | Godeps/_workspace/src/gopkg.in/v2/yaml/scannerc.go:626-662 | Taking the head keeps every potential key inside the queue, provided none points at the head |
| ScanQueue.BalancedInsert | Godeps/_workspace/src/gopkg.in/v2/yaml/scannerc.go:937-961 | A retroactive BLOCK-START keeps every prefix of the token stream balanced |
| ScanQueue.StateKey | Godeps/_workspace/src/gopkg.in/v2/yaml/scannerc.go:1274-1300 | Inserting KEY keeps the whole invariant: key numbers, flow levels, increasing indents, starts minus ends equal to the depth |
| ScanQueue.StateOpenKey | Godeps/_workspace/src/gopkg.in/v2/yaml/scannerc.go:1274-1300 | So does inserting BLOCK-MAPPING-START in front of it |
| ScanQueue.UnrolledMeets | Godeps/_workspace/src/gopkg.in/v2/yaml/scannerc.go:966-987 | After unrolling, the current level is the column if and only if the column was one of the levels |
| ScanQueue.GrownWeaves | Godeps/_workspace/src/gopkg.in/v2/yaml/scannerc.go:626-662 | Retroactive insertion, closing tokens and a new last token: the queue carries that token behind those it carried before |
| ScanQueue.WovenAlike | Godeps/_workspace/src/gopkg.in/v2/yaml/scannerc.go:571-597 | Without the tokens that the scanner makes, and without KEY, the tokens of a run are the lexemes read |
| ScanSteps.FetchedContext | Godeps/_workspace/src/gopkg.in/v2/yaml/scannerc.go:1105-1431 | Whether a key may follow, and the flow level, for every kind of lexeme |
| ScanSteps.UnrolledEnd | Godeps/_workspace/src/gopkg.in/v2/yaml/scannerc.go:966-987 | As many BLOCK-END as there are levels deeper than the column |
| ScanFlow.NodeScanned | Godeps/_workspace/src/gopkg.in/v2/yaml/scannerc.go:1105-1431 | A node within a flow collection is scanned to its tokens, and is the potential key of its level exactly if one was allowed where it begins |
| YamlScanner.Scanner.InsertToken | Godeps/_workspace/src/gopkg.in/v2/yaml/apic.go:8-25 | In place: the queue moves to the front when full, and the token stands at its position |
| YamlScanner.Scanner.StaleSimpleKeys | Godeps/_workspace/src/gopkg.in/v2/yaml/scannerc.go:842-863 | Exactly the keys on an earlier line or more than 1024 characters back are given up, and a required one is an error |
| YamlScanner.Scanner.SaveSimpleKey | Godeps/_workspace/src/gopkg.in/v2/yaml/scannerc.go:867-897 | The new potential key has the number the next token will get; the panic happens exactly if a required key is not allowed |
| YamlScanner.Scanner.RemoveSimpleKey | Godeps/_workspace/src/gopkg.in/v2/yaml/scannerc.go:900-913 | The key of the current level is given up; an error exactly if it is required |
| YamlScanner.Scanner.RollIndent | Godeps/_workspace/src/gopkg.in/v2/yaml/scannerc.go:937-961 | A deeper column in the block context pushes the indent and inserts the start token at the numbered position or the end |
| YamlScanner.Scanner.UnrollIndent | Godeps/_workspace/src/gopkg.in/v2/yaml/scannerc.go:966-987 | Exactly the levels deeper than the column are closed, one BLOCK-END each, and the level below them becomes the current one |
| YamlScanner.Scanner.FetchStreamStart | Godeps/_workspace/src/gopkg.in/v2/yaml/scannerc.go:990-1013 | Establishes the invariant |
| YamlScanner.Scanner.FetchStreamEnd | Godeps/_workspace/src/gopkg.in/v2/yaml/scannerc.go:1016-1044 | Outside of flow collections every block collection is closed when STREAM-END is queued |
| YamlScanner.Scanner.FetchOutside | Godeps/_workspace/src/gopkg.in/v2/yaml/scannerc.go:1047-1102 | Directives and document indicators close every block collection outside of flow collections |
| YamlScanner.Scanner.FetchFlowCollectionStart | Godeps/_workspace/src/gopkg.in/v2/yaml/scannerc.go:1105-1133 | One more flow level with a simple key of its own |
| YamlScanner.Scanner.FetchFlowCollectionEnd | Godeps/_workspace/src/gopkg.in/v2/yaml/scannerc.go:1136-1165 | The flow level and its key go; at level 0 nothing happens |
| YamlScanner.Scanner.FetchBlockIndicator | Godeps/_workspace/src/gopkg.in/v2/yaml/scannerc.go:1193-1271 | In the block context an error exactly if no simple key is allowed; opens a collection exactly if the column is deeper |
| YamlScanner.Scanner.FetchValue | Godeps/_workspace/src/gopkg.in/v2/yaml/scannerc.go:1274-1336 | VALUE with a potential key or without: the state of the step, and an error exactly if there is no key and none is allowed in the block context |
| YamlScanner.Scanner.FetchContent | Godeps/_workspace/src/gopkg.in/v2/yaml/scannerc.go:1339-1431 | Saves a potential key for the token it appends |
| YamlScanner.Scanner.SkipToken | Godeps/_workspace/src/gopkg.in/v2/yaml/parserc.go:54-59 | The head leaves the queue, and all potential keys stay within what is left |
| YamlScanner.Scanner.ViewIsThere | Godeps/_workspace/src/gopkg.in/v2/yaml/scannerc.go:626-662 | Between two lexemes the scanner is always in a state to which the laws of the steps below apply: a remembered key for each flow level, live ones pointing into the queue, and levels that increase |
| YamlEmit.NextIsWaiting | Godeps/_workspace/src/gopkg.in/v2/yaml/emitterc.go:136-170 | When the start of a collection is emitted, the event behind it is in the queue |
| YamlEmit.NothingWaits | Godeps/_workspace/src/gopkg.in/v2/yaml/emitterc.go:136-170 | In a complete stream the lookahead holds nothing back |
| YamlEmit.OnlyFlowInFlow | Godeps/_workspace/src/gopkg.in/v2/yaml/emitterc.go:707-738 | The flow level is positive exactly within a flow collection, and then only flow collections are open or opened |
| YamlEmitter.Emitter.IncreaseIndent | Godeps/_workspace/src/gopkg.in/v2/yaml/emitterc.go:196-208 | The old indent is pushed; the new one is 0 or the best indent at first, and then deeper by the best indent unless indentless |
| YamlEmitter.Emitter.EmitStreamStart | Godeps/_workspace/src/gopkg.in/v2/yaml/emitterc.go:272-308 | The best indent is brought into 2 to 9, and anything but STREAM-START is refused |
| YamlEmitter.Emitter.EmitDocumentStart | Godeps/_workspace/src/gopkg.in/v2/yaml/emitterc.go:311-422 | A document or the end of the stream, and nothing else; every directive must be valid and no handle declared twice |
| YamlEmitter.Emitter.EmitDocumentEnd | Godeps/_workspace/src/gopkg.in/v2/yaml/emitterc.go:431-453 | Only DOCUMENT-END is accepted |
| YamlEmitter.Emitter.EmitFlowSequenceItem | Godeps/_workspace/src/gopkg.in/v2/yaml/emitterc.go:456-501 | Accepts exactly what the grammar allows here; the indent of the collection and, when it ends, the stacks are exact |
| YamlEmitter.Emitter.EmitFlowMappingKey | Godeps/_workspace/src/gopkg.in/v2/yaml/emitterc.go:504-555 | Accepts exactly what the grammar allows here, with the state for the value decided by whether this is a simple key, and the indent of the collection exact |
| YamlEmitter.Emitter.EmitBlockMappingKey | Godeps/_workspace/src/gopkg.in/v2/yaml/emitterc.go:602-627 | The same in the block context |
| YamlEmitter.Emitter.EmitNode | Godeps/_workspace/src/gopkg.in/v2/yaml/emitterc.go:648-670 | An alias, a scalar or the start of a collection; a leaf returns to the state on top, a start leaves the states alone |
| YamlEmitter.Emitter.EmitScalar | Godeps/_workspace/src/gopkg.in/v2/yaml/emitterc.go:683-704 | Pushes and pops its own indent; refuses exactly an untagged scalar that may be neither plain nor quoted implicitly |
| YamlEmitter.Emitter.EmitSequenceStart | Godeps/_workspace/src/gopkg.in/v2/yaml/emitterc.go:707-721 | Flow exactly if within a flow collection, canonical, asked for, or empty; mappings alike |
| YamlEmitter.Emitter.NeedMoreEvents | Godeps/_workspace/src/gopkg.in/v2/yaml/emitterc.go:136-170 | The loop over the queue decides whether the head must wait |
| YamlEmitter.Emitter.AppendDirectives | Godeps/_workspace/src/gopkg.in/v2/yaml/emitterc.go:321-336 | An error exactly if a directive is invalid or repeats a handle; otherwise the list is theirs with the default handles they do not declare behind them |
| YamlEmit.WaitsFor | Godeps/_workspace/src/gopkg.in/v2/yaml/emitterc.go:136-170 | Exactly when the head waits: the start of a document for one more event, of a sequence for two, of a mapping for three, unless what it has started ends before |
| Utf8.PrintableHere | Godeps/_workspace/src/gopkg.in/v2/yaml/yamlprivateh.go:63-73 | The test on bytes for printable characters says exactly which code points they encode |
| Utf8.BreakHere | Godeps/_workspace/src/gopkg.in/v2/yaml/yamlprivateh.go:58-108 | So do the tests for ASCII, NUL, blanks and line breaks |
| QuotedWriter.Writer.WriteDoubleQuoted | Godeps/_workspace/src/gopkg.in/v2/yaml/emitterc.go:1429-1548 | The writer, in place: between the quotes stands the text of the layout that the value, the column and the settings determine, and these pieces denote exactly the value |
| QuotedWriter.Writer.WriteSpace | Godeps/_workspace/src/gopkg.in/v2/yaml/emitterc.go:1520-1534 | A space is written, escaped behind a fold, or becomes a fold |
| QuotedWriter.Writer.WriteIndent | Godeps/_workspace/src/gopkg.in/v2/yaml/emitterc.go:1201-1219 | Exactly the bytes written: a line break if one is needed, and spaces up to the margin |
| QuotedWriter.DecodesTo | Godeps/_workspace/src/gopkg.in/v2/yaml/emitterc.go:1440-1458 | For every code point, shifting in six bits per continuation byte inverts its encoding |
| QuotedScanner.Scanner.ScanFlowScalar | Godeps/_workspace/src/gopkg.in/v2/yaml/scannerc.go:2304-2557 | The scanner loops, in place, on every buffer: the value and position of the specification, or its error |
| QuotedScanner.Scanner.ScanEscape | Godeps/_workspace/src/gopkg.in/v2/yaml/scannerc.go:2363-2467 | Escape letters, code lengths and the errors for unknown escapes, missing digits and surrogates |
| QuotedScanner.Scanner.ReadLine | Godeps/_workspace/src/gopkg.in/v2/yaml/scannerc.go:538-568 | CR LF, CR, LF and NEL become LF; LS and PS stay |
| QuotedScanner.MarginFails | Godeps/_workspace/src/gopkg.in/v2/yaml/scannerc.go:2312-2328 | The writer reaches that error: with indent 0 and width 0, for either setting of unicode, it folds "a --- b" at both spaces, and the scanner fails on what it wrote |
| QuotedWriter.LayoutIsChosen | Godeps/_workspace/src/gopkg.in/v2/yaml/emitterc.go:1433-1545 | In the layout what is escaped is what must be, and lines are folded only if allowed, with the line break and the margin of the settings |
| QuotedText.QuotedReadsBack | Godeps/_workspace/src/gopkg.in/v2/yaml/scannerc.go:2304-2557 | What the writer may write is such a text, so it is read back to its value |
| QuotedText.BlankLinesStay | Godeps/_workspace/src/gopkg.in/v2/yaml/scannerc.go:2518-2537 | A fold with k further line breaks denotes k line feeds, and a space if there are none; blanks around the breaks are dropped |
| QuotedText.NamedIsRead | Godeps/_workspace/src/gopkg.in/v2/yaml/scannerc.go:2363-2408 | The letters behind a backslash and what each stands for; any other is an error |
| QuotedText.EscapeDenotes | Godeps/_workspace/src/gopkg.in/v2/yaml/scannerc.go:2363-2467 | Every escape that the writer writes denotes its code point |
| QuotedWriter.FoldsExactly | Godeps/_workspace/src/gopkg.in/v2/yaml/emitterc.go:1520-1534 | Where lines are folded, exactly: at a single space with something on both sides, once what has been written since the last break exceeds the best width |
| QuotedWriter.EscapesExactly | Godeps/_workspace/src/gopkg.in/v2/yaml/emitterc.go:1435-1519 | What is escaped, exactly, as ranges of code points |
| QuantileSummary.InsertedSummarizes | Godeps/_workspace/src/github.com/beorn7/perks/quantile/stream.go:210-242 | One observation put in between the values not above it and those above it keeps sortedness, total width, rank bounds, observed values and the maximum |
| QuantileSummary.MergeAllSummarizes | Godeps/_workspace/src/github.com/beorn7/perks/quantile/stream.go:210-242 | Merging a sorted batch, one observation after the other, keeps a summary true |
| QuantileSummary.CompressDownSummarizes | Godeps/_workspace/src/github.com/beorn7/perks/quantile/stream.go:263-286 | Compressing keeps a summary true, for an arbitrary error function |
| QuantileStream.Inner.Merge | Godeps/_workspace/src/github.com/beorn7/perks/quantile/stream.go:210-242 | The in-place loops over the list compute merge and compress |
| QuantileStream.Inner.CompressList | Godeps/_workspace/src/github.com/beorn7/perks/quantile/stream.go:263-286 | The backwards loop that deletes elements computes compress |
| QuantileStream.Inner.Query | Godeps/_workspace/src/github.com/beorn7/perks/quantile/stream.go:248-261 | The value of the last sample whose upper rank, and that of all in front of it, is at most q times n rounded up and half the error rounded up |
| QuantileStream.ChosenIsFirst | Godeps/_workspace/src/github.com/beorn7/perks/quantile/stream.go:248-261 | That position is the first of its kind: all before it end within the target, it does not |
| QuantileStream.Stream.MaybeSort | Godeps/_workspace/src/github.com/beorn7/perks/quantile/stream.go:184-189 | The buffer is sorted and keeps its multiset of values |
| QuantileStream.Stream.Insert | Godeps/_workspace/src/github.com/beorn7/perks/quantile/stream.go:113-123 | One more observation, whether or not it fills the buffer |
| QuantileStream.Stream.Flush | Godeps/_workspace/src/github.com/beorn7/perks/quantile/stream.go:178-182 | The buffer goes into the summary, nothing observed is lost |
| QuantileStream.Stream.Reset | Godeps/_workspace/src/github.com/beorn7/perks/quantile/stream.go:158-161 | Nothing is observed any more |
| QuantileStream.RankOfSorted | Godeps/_workspace/src/github.com/beorn7/perks/quantile/stream.go:128-145 | In a sorted buffer the element at i has at least i + 1 values up to it and at most i below it |
| QuantileStream.RankInRange | Godeps/_workspace/src/github.com/beorn7/perks/quantile/stream.go:132-142 | For which numbers the rank exists: for all from 0 to 1, and exactly while their product with the count stays above -1 and below the count plus 1 |
| QuantileRank.HighBiasedWanes | Godeps/_workspace/src/github.com/beorn7/perks/quantile/stream.go:56-71 | The error function for high quantiles is of this kind |
| QuantileCompress.CompressJoins | Godeps/_workspace/src/github.com/beorn7/perks/quantile/stream.go:263-286 | For every error function: each sample left is the last of some neighbours, with the sum of their widths |
| QuantileCompress.GrowingErrorFails | Godeps/_workspace/src/github.com/beorn7/perks/quantile/stream.go:39-54 | With the error function for low quantiles the upper bounds fail: after three batches, the fifth of eight observations is left with a bound of four |
| TokenBucket.Bucket.Adjust | Godeps/_workspace/src/github.com/juju/ratelimit/ratelimit.go:209-221 | The lazy refill, with its early return on a full bucket |
| TokenBucket.Bucket.Take | Godeps/_workspace/src/github.com/juju/ratelimit/ratelimit.go:181-205 | take against the step function: accepted, refused, or accepted with a wait and a debt |
| TokenBucket.Bucket.TakeAvailable | Godeps/_workspace/src/github.com/juju/ratelimit/ratelimit.go:156-172 | takeAvailable in place: the step for which TokenBucket.TakesAllThereIs and TokenBucket.RequestBalances hold |
| TokenBucket.ServePays | Godeps/_workspace/src/github.com/juju/ratelimit/ratelimit.go:156-221 | One request: avail stays within capacity, and what is taken is paid for by the refill of the ticks counted |
| TokenBucket.RunPays | Godeps/_workspace/src/github.com/juju/ratelimit/ratelimit.go:156-221 | Any interleaving of take and takeAvailable under a non-decreasing clock: tokens taken plus avail are bounded by the level at the start plus the refill |
| TokenBucket.NoNewDebt | Godeps/_workspace/src/github.com/juju/ratelimit/ratelimit.go:156-172 | takeAvailable never goes into debt |
| TokenBucket.TwiceTheCapacity | Godeps/_workspace/src/github.com/juju/ratelimit/ratelimit.go:209-221 | The doubled capacity is reached: a full bucket left alone long enough grants it twice at one instant |
| TokenBucket.Bucket.NewBucketWithQuantum | Godeps/_workspace/src/github.com/juju/ratelimit/ratelimit.go:81-98 | A bucket that starts full at tick 0, or null, for a panic, exactly if a parameter is not positive |
| TokenBucket.AcceptedIffInTime | Godeps/_workspace/src/github.com/juju/ratelimit/ratelimit.go:181-205 | A take is accepted only if the tokens it lacks are there within maxWait, and exactly then unless the bucket was full with an old tick count; a refused one takes nothing |
| TokenBucket.TakesAllThereIs | Godeps/_workspace/src/github.com/juju/ratelimit/ratelimit.go:156-172 | takeAvailable takes all that is asked or all that is there, and never more |
| TokenBucket.TickIsElapsed | Godeps/_workspace/src/github.com/juju/ratelimit/ratelimit.go:209-211 | The tick count is the number of whole fill intervals since the bucket was made |
| EagerBucket.AvailableIsEager | Godeps/_workspace/src/github.com/juju/ratelimit/ratelimit.go:156-221 | Any run of takeAvailable from a level below capacity is answered like that |

## Left out

- The trailing-slash hint that getValue returns, and trailing-slash fixing in findCaseInsensitivePath: a recommendation
  only.
- RouterConflicts.AddRouteIff: takes patterns with at most 255 wildcards, beyond which countParams saturates; addRoute
  itself is modelled with the saturation.
- RouterNode.Node.Walk: the loops of addRoute and insertChild that reassign n are calls on the next node here; the
  state behind a panic is not specified.
- CaseInsensitive.FindFoldSound: letter case is that of ASCII.
- MethodTree.Tree.GetValue: like FixCase, for a tree with at least one route; the engine makes the tree of a method
  when its first route is registered.
- MethodTree.Tree.AddRoute: the panics for an empty method and an empty chain of handlers are left out; a chain is a
  value of its own, and there is one tree for each method.
- Strings are sequences of bytes written as characters; slices and their sharing are sequences, except that the
  capacity of the parameter slice is kept.
- QuantileStream.Stream.MaybeSort: sort.Sort is replaced by an insertion sort; any sorted permutation would do.
- Public Stream.Merge, which its own comment calls broken, Stream.Samples, and the targeted error functions.
- QuantileRank.RankUpperBound: is for error functions that wane with the rank, as that of NewHighBiased does; for low
  quantiles it is false, for targeted ones it is left open, and nothing is stated in terms of epsilon.
- Floating point in the quantile stream: values are reals and widths natural numbers.
- TokenBucket.Bucket.Take: int64 overflow, the mutex, sleeping, and fitting a rate (NewBucketWithRate) are left out;
  the clock is a parameter.
- TokenBucket.IssuedSinceCreation: like all results on the bucket, for a clock that does not run backwards and starts
  when the bucket is made; a level that is given is one that can occur, within the capacity and with a tick count not
  ahead of the clock.
- Event marks, error messages and encodings in the YAML parser; reading and writing of files and UTF-16.
- YamlScanner.Scanner.FetchNextToken: characters are not read there; a lexeme says what stands next and where it ends,
  and only double-quoted scalars are scanned character by character; lexemes are those that reading can deliver:
  failures come from content and directives, and only a plain scalar ends behind a line break.
- YamlParseOnly.OnlyStreamsAreRead: takes anchors with a name, as the scanner makes them.
- ScanFlow.StreamScanned: is for flow collections in one line without properties in front; for block collections and
  several lines there are the laws of single lexemes.
- YamlScanner.Scanner.FetchContent: stands for the fetchers of anchors, aliases, tags, quoted and plain scalars, which
  keep the same state.
- YamlScanner.Scanner.FetchOutside: stands for the fetchers of directives and of document indicators.
- Plain, single-quoted, literal and folded scalars, tags and directives as text, in the scanner and the emitter.
- YamlEmitter.Emitter.Emit: the text written is left out, so whether an entry is short enough for a simple key and
  whether the last thing written was indentation are left open; a version directive is always 1.1, and the writer does
  not fail.
- QuotedWriter.Writer.WriteDoubleQuoted: the value is valid UTF-8, as the encoding of a list of code points.
- The proxy, the controllers in JavaScript, logging, flags and the other vendored packages: input and output,
  reflection or formatting.
