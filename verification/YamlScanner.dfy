/**
 The token queue of the scanner in place.  Reading characters is left to the caller: a lexeme says where the next
 token starts and ends and what it is; everything the scanner keeps between tokens is here.
 */
module YamlScanner {
  import opened Common
  import opened YamlParse
  import opened ScanQueue
  import opened ScanSteps

  class Scanner {
    var mark: Mark
    var tokens: seq<Queued>
    var head: nat
    var capacity: nat
    var parsed: nat
    var available: bool
    var started: bool
    var simpleKeys: seq<SimpleKey>
    var simpleKeyAllowed: bool
    var flowLevel: nat
    var indent: int
    var indents: seq<int>
    var error: Error

    ghost var taken: seq<Queued>   // the tokens handed out
    ghost var read: seq<Lexeme>    // the lexemes fetched
    ghost var origin: Mark         // where they begin

    ghost predicate Sound()
      reads this
    {
      && head <= |tokens| && parsed == |taken|
      && (started ==> StateFits(taken, Queue(), simpleKeys, flowLevel, indents, indent))
      && (!started ==> simpleKeys == [] && flowLevel == 0 && indents == [] && taken == [] && Queue() == [])
    }

    /** Nothing is promised behind an error. */
    ghost predicate Valid()
      reads this
    {
      error == NoError ==> Sound() && (available ==> HeadIsFree())
    }

    function Queue(): seq<Queued>
      requires head <= |tokens|
      reads this`tokens, this`head
    {
      tokens[head..]
    }

    /** All tokens made: those handed out and those in the queue. */
    ghost function All(): seq<Queued>
      requires head <= |tokens|
      reads this`tokens, this`head, this`taken
    {
      taken + Queue()
    }

    ghost function Now(): View
      requires head <= |tokens|
      reads this`tokens, this`head, this`taken, this`mark, this`simpleKeys, this`simpleKeyAllowed, this`flowLevel,
        this`indents, this`indent
    {
      View(mark, All(), simpleKeys, simpleKeyAllowed, flowLevel, indents, indent)
    }

    /** The scanner is where `v` is, but it may have given up stale keys already. */
    ghost predicate Tracks(v: View)
      requires head <= |tokens|
      reads this`tokens, this`head, this`taken, this`mark, this`simpleKeys, this`simpleKeyAllowed, this`flowLevel,
        this`indents, this`indent, this`started
    {
      started && Now() == v.(keys := simpleKeys) && GivenUpSince(v.keys, simpleKeys, mark)
    }

    /**
     The tokens made are those of the lexemes fetched, in order, with others woven in; and if no lexeme begins before
     the end of another, they are exactly those of the steps.
     */
    ghost predicate Faithful()
      requires head <= |tokens|
      reads this`tokens, this`head, this`taken, this`mark, this`simpleKeys, this`simpleKeyAllowed, this`flowLevel,
        this`indents, this`indent, this`started, this`read, this`origin
    {
      && (!started ==> read == [])
      && (started ==>
            Weaves(All(), Readings(read)) && (InOrder(origin, read) ==> Tracks(ScanAll(Started(origin), read))))
    }

    /** There is a head, and no potential key could still insert a token in front of it. */
    ghost predicate HeadIsFree()
      requires head <= |tokens|
      reads this
    {
      Queue() != [] && forall i :: 0 <= i < |simpleKeys| && simpleKeys[i].possible ==> simpleKeys[i].number != parsed
    }

    constructor (capacity: nat)
      ensures Valid() && Sound() && Faithful() && error == NoError && !started && !available
    {
      mark := Mark(0, 0, 0);
      tokens, head, this.capacity, parsed, available := [], 0, capacity, 0, false;
      started, simpleKeys, simpleKeyAllowed, flowLevel := false, [], false, 0;
      indent, indents, error, taken, read, origin := 0, [], NoError, [], [], Mark(0, 0, 0);
    }

    // ---------------------------------------------------------------- the queue

    /** insert_token: appends, or inserts in front of the position counted from the head. */
    method InsertToken(pos: int, t: Queued)
      requires head <= |tokens| && pos <= |Queue()|
      modifies this`tokens, this`head, this`capacity
      ensures head <= |tokens| && Queue() == InsertAt(old(Queue()), if pos < 0 then |old(Queue())| else pos, t)
    {
      Reclaim();
      ghost var before := tokens;
      tokens := tokens + [t];
      if |tokens| > capacity {
        capacity := |tokens|;
      }
      if pos >= 0 {
        var at := head + pos;
        ShiftInserts(before, head, pos, t);
        tokens := tokens[..at + 1] + tokens[at..|tokens| - 1];
        tokens := tokens[at := t];
      }
    }

    /** A full queue moves to the front of its buffer. */
    method Reclaim()
      requires head <= |tokens|
      modifies this`tokens, this`head
      ensures head <= |tokens| && Queue() == old(Queue())
    {
      if head > 0 && |tokens| == capacity {
        tokens := tokens[head..];
        head := 0;
      }
    }

    method Append(t: Queued)
      requires head <= |tokens|
      modifies this`tokens, this`head, this`capacity
      ensures head <= |tokens| && Queue() == old(Queue()) + [t] && All() == old(All()) + [t]
    {
      InsertToken(-1, t);
      assert taken + (old(Queue()) + [t]) == taken + old(Queue()) + [t];
    }

    method Fail(e: Error) returns (ok: bool)
      requires e != NoError
      modifies this`error
      ensures !ok && error == e
    {
      error := e;
      ok := false;
    }

    // ---------------------------------------------------------------- when a fetch fails

    /** Moving to `m` gives up a key that must become one. */
    predicate KeyLost(m: Mark)
      reads this`simpleKeys
    {
      exists i :: 0 <= i < |simpleKeys| && StaleAt(simpleKeys[i], m) && simpleKeys[i].required
    }

    /** The key of the current level, if it is still possible at `m`. */
    predicate PossibleAt(m: Mark)
      reads this`simpleKeys
    {
      simpleKeys != [] && var k := simpleKeys[|simpleKeys| - 1]; k.possible && !StaleAt(k, m)
    }

    predicate RequiredAt(m: Mark)
      reads this`simpleKeys
    {
      PossibleAt(m) && simpleKeys[|simpleKeys| - 1].required
    }

    predicate AllowedAt(l: Lexeme)
      reads this`simpleKeyAllowed, this`flowLevel
    {
      simpleKeyAllowed || (l.newLine && flowLevel == 0)
    }

    /** Saving a key for the lexeme panics: it stands in the column of a level, and no key is allowed there. */
    predicate PanicsAt(l: Lexeme)
      reads this`simpleKeyAllowed, this`flowLevel, this`indent, this`indents
    {
      MaySaveKey(l.token) && flowLevel == 0 && !AllowedAt(l) && (l.start.column == indent || l.start.column in indents)
    }

    /** The fetcher for the lexeme reports an error. */
    predicate Refuses(l: Lexeme, allowed: bool, required: bool, possible: bool)
      reads this`flowLevel
    {
      if MaySaveKey(l.token) then (allowed && required) || l.fails
      else if l.token.ValueToken? then !possible && flowLevel == 0 && !allowed
      else (IsBlockIndicator(l.token) && flowLevel == 0 && !allowed) || required || l.fails
    }

    /** How fetching the lexeme ends. */
    function Verdict(l: Lexeme): Error
      reads this
    {
      if !started then NoError
      else if KeyLost(l.start) then ScannerError
      else if PanicsAt(l) then Panic
      else if Refuses(l, AllowedAt(l), RequiredAt(l.start), PossibleAt(l.start)) then ScannerError
      else NoError
    }

    // ---------------------------------------------------------------- simple keys

    predicate IsStale(k: SimpleKey)
      reads this`mark
    {
      StaleAt(k, mark)
    }

    /** Gives up keys that are too far away; a required one is an error. */
    method StaleSimpleKeys() returns (ok: bool)
      requires error == NoError
      modifies this`simpleKeys, this`error
      ensures ok == (error == NoError) == (forall k <- old(simpleKeys) :: IsStale(k) ==> !k.required)
      ensures !ok ==> error == ScannerError
      ensures ok ==> simpleKeys == Fresh(old(simpleKeys), mark)
      ensures ok ==> |simpleKeys| == |old(simpleKeys)| &&
                     forall i :: 0 <= i < |simpleKeys| ==>
                       var k := old(simpleKeys[i]);
                       simpleKeys[i] == if IsStale(k) then k.(possible := false) else k
    {
      for i := 0 to |simpleKeys|
        invariant error == NoError && |simpleKeys| == |old(simpleKeys)|
        invariant forall j :: 0 <= j < i ==>
                    var k := old(simpleKeys[j]);
                    simpleKeys[j] == (if IsStale(k) then k.(possible := false) else k) && (IsStale(k) ==> !k.required)
        invariant forall j :: i <= j < |simpleKeys| ==> simpleKeys[j] == old(simpleKeys[j])
      {
        if IsStale(simpleKeys[i]) {
          if simpleKeys[i].required {
            assert old(simpleKeys[i]) in old(simpleKeys);
            ok := Fail(ScannerError);
            return;
          }
          simpleKeys := simpleKeys[i := simpleKeys[i].(possible := false)];
        }
      }
      ok := true;
    }

    /** The comment in the code says that a required key is always allowed; it panics if not. */
    predicate Panics()
      reads this`flowLevel, this`indent, this`mark, this`simpleKeyAllowed
    {
      flowLevel == 0 && indent == mark.column && !simpleKeyAllowed
    }

    /** A key of the current level that must become a key cannot be given up. */
    predicate KeyRequired()
      reads this`simpleKeys
    {
      simpleKeys != [] && var k := simpleKeys[|simpleKeys| - 1]; k.possible && k.required
    }

    predicate KeyPossible()
      reads this`simpleKeys
    {
      simpleKeys != [] && simpleKeys[|simpleKeys| - 1].possible
    }

    /** No key has to become one: then nothing is an error when it is given up. */
    predicate NoneRequired()
      reads this`simpleKeys
    {
      forall k <- simpleKeys :: k.possible ==> !k.required
    }

    method SaveSimpleKey() returns (ok: bool)
      requires error == NoError && simpleKeys != [] && head <= |tokens|
      modifies this`simpleKeys, this`error
      ensures error == Panic <==> old(Panics())
      ensures ok == (error == NoError) && error != ParserError
      ensures ok <==> !old(Panics()) && !(simpleKeyAllowed && old(KeyRequired()))
      ensures ok ==> simpleKeys ==
                     if simpleKeyAllowed then
                       old(simpleKeys)[|old(simpleKeys)| - 1 :=
                         SimpleKey(true, flowLevel == 0 && indent == mark.column, parsed + |Queue()|, mark)]
                     else old(simpleKeys)
    {
      var required := flowLevel == 0 && indent == mark.column;
      if required && !simpleKeyAllowed {
        ok := Fail(Panic);
        return;
      }
      if simpleKeyAllowed {
        var key := SimpleKey(true, required, parsed + (|tokens| - head), mark);
        ok := RemoveSimpleKey();
        if !ok {
          return;
        }
        simpleKeys := simpleKeys[|simpleKeys| - 1 := key];
      }
      ok := true;
    }

    method RemoveSimpleKey() returns (ok: bool)
      requires error == NoError && simpleKeys != []
      modifies this`simpleKeys, this`error
      ensures ok == (error == NoError) == !old(KeyRequired())
      ensures !ok ==> error == ScannerError
      ensures ok ==> simpleKeys ==
                     var top := |old(simpleKeys)| - 1; old(simpleKeys)[top := old(simpleKeys[top]).(possible := false)]
    {
      var i := |simpleKeys| - 1;
      if simpleKeys[i].possible {
        if simpleKeys[i].required {
          ok := Fail(ScannerError);
          return;
        }
      }
      simpleKeys := simpleKeys[i := simpleKeys[i].(possible := false)];
      ok := true;
    }

    // ---------------------------------------------------------------- indentation

    /** roll_indent: a deeper column opens a block collection, at the end of the queue or at the token numbered. */
    method RollIndent(column: nat, number: int, token: Token, m: Mark)
      requires head <= |tokens| && number - parsed <= |Queue()|
      requires number >= 0 ==> number >= parsed
      modifies this`tokens, this`head, this`capacity, this`indent, this`indents
      ensures head <= |tokens|
      ensures if flowLevel == 0 && old(indent) < column then
                && indents == old(indents) + [old(indent)] && indent == column
                && Queue() ==
                   InsertAt(old(Queue()), if number < 0 then |old(Queue())| else number - parsed, Queued(token, m))
              else
                indents == old(indents) && indent == old(indent) && Queue() == old(Queue())
      ensures parsed == |taken| ==>
                Now() == Rolled(old(Now()), column, if number < 0 then |old(All())| else number, Queued(token, m))
    {
      if flowLevel > 0 {
        return;
      }
      if indent < column {
        indents := indents + [indent];
        indent := column;
        var pos := number;
        if pos > -1 {
          pos := pos - parsed;
        }
        InsertedBehind(taken, Queue(), if pos < 0 then |Queue()| else pos, Queued(token, m));
        InsertToken(pos, Queued(token, m));
      }
    }

    /** unroll_indent: every level deeper than the column is closed. */
    method UnrollIndent(column: int)
      requires error == NoError && started && Sound() && column >= -1
      modifies this`tokens, this`head, this`capacity, this`indent, this`indents
      ensures Sound() && Now() == Unrolled(old(Now()), column)
      ensures flowLevel > 0 ==> indents == old(indents) && indent == old(indent)
      ensures flowLevel == 0 ==> indent <= column && UnrolledTo(old(indents), old(indent), column, indents, indent)
    {
      hide StateFits, UnrolledTo, IndentsFit;
      if flowLevel > 0 {
        return;
      }
      LevelsFit();
      UnrolledLevels(Now(), column);
      while indent > column
        invariant Sound()
        invariant Unrolled(Now(), column) == Unrolled(old(Now()), column)
        decreases |indents|
      {
        ghost var q := Queue();
        DeepIndent(column);
        Append(Queued(BlockEndToken, mark));
        StateUnroll(taken, q, simpleKeys, flowLevel, indents, indent, Queued(BlockEndToken, mark));
        indent := indents[|indents| - 1];
        indents := indents[..|indents| - 1];
      }
    }

    lemma DeepIndent(column: int)
      requires started && Sound() && indent > column >= -1
      ensures indents != []
    {
      BottomIndent(indents, indent);
    }

    // ---------------------------------------------------------------- the fetchers

    method FetchStreamStart()
      requires error == NoError && !started && Sound()
      modifies this`tokens, this`head, this`capacity, this`simpleKeys, this`simpleKeyAllowed, this`indent, this`started
      ensures started && Sound() && Queue() == [Queued(StreamStartToken, mark)]
      ensures indent == -1 && simpleKeyAllowed && NoneRequired() && Now() == Started(mark)
    {
      hide StateFits;
      indent := -1;
      simpleKeys := simpleKeys + [NoKey];
      simpleKeyAllowed := true;
      started := true;
      assert simpleKeys == [NoKey] && All() == [];
      Append(Queued(StreamStartToken, mark));
      assert All() == [Queued(StreamStartToken, mark)];
      FirstState(Queued(StreamStartToken, mark));
    }

    /** Common to the end of the stream, directives and document indicators: the text outside of documents. */
    method FetchBoundary(t: Queued) returns (ok: bool)
      requires error == NoError && started && Sound() && Weight(t) == 0
      modifies this`tokens, this`head, this`capacity, this`simpleKeys, this`simpleKeyAllowed,
        this`indent, this`indents, this`error
      ensures ok == (error == NoError) == !old(KeyRequired())
      ensures !ok ==> error == ScannerError
      ensures ok ==> Sound() && Now() == Outside(old(Now()), t)
      ensures ok && flowLevel == 0 ==> indents == [] && indent == -1 && Depth(taken + Queue()) == 0
    {
      hide StateFits, Unrolled, UnrolledTo, Balanced, Depth, Weight;
      UnrollIndent(-1);
      ghost var q, keys := Queue(), simpleKeys;
      KeysThere();
      ok := RemoveSimpleKey();
      if !ok {
        return;
      }
      simpleKeyAllowed := false;
      Append(t);
      StateAppend(taken, q, keys, simpleKeys, flowLevel, flowLevel, indents, indent, t);
      if flowLevel == 0 { NothingOpen(); }
    }

    lemma LevelsFit()
      requires started && Sound()
      ensures IndentsFit(indents, indent)
    {
    }

    lemma ViewIsThere()
      requires started && Sound()
      ensures ViewFits(Now())
    {
    }

    lemma KeysThere()
      requires started && Sound()
      ensures |simpleKeys| == flowLevel + 1
    {
    }

    lemma NothingOpen()
      requires started && Sound() && indent <= -1
      ensures indents == [] && indent == -1 && Depth(taken + Queue()) == 0
    {
      BottomIndent(indents, indent);
    }

    /** Every block collection is closed, unless a flow collection is still open. */
    method FetchStreamEnd() returns (ok: bool)
      requires error == NoError && started && Sound()
      modifies this`mark, this`tokens, this`head, this`capacity, this`simpleKeys, this`simpleKeyAllowed,
        this`indent, this`indents, this`error
      ensures ok == (error == NoError) == !old(KeyRequired())
      ensures !ok ==> error == ScannerError
      ensures ok ==> Sound() && Now() == Outside(old(Now()).(mark := LineStart(old(mark))),
                                                 Queued(StreamEndToken, LineStart(old(mark))))
      ensures ok && flowLevel == 0 ==> indents == [] && Depth(taken + Queue()) == 0
    {
      hide StateFits, Outside;
      if mark.column != 0 {
        mark := LineStart(mark);
      }
      ok := FetchBoundary(Queued(StreamEndToken, mark));
    }

    /** A directive or a document indicator. */
    method FetchOutside(l: Lexeme) returns (ok: bool)
      requires error == NoError && started && Sound() && Weight(Queued(l.token, l.start)) == 0
      modifies this`mark, this`tokens, this`head, this`capacity, this`simpleKeys, this`simpleKeyAllowed,
        this`indent, this`indents, this`error
      ensures ok == (error == NoError) == (!old(KeyRequired()) && !l.fails)
      ensures !ok ==> error == ScannerError
      ensures ok ==> Sound() && Now() == Outside(old(Now()), Queued(l.token, l.start)).(mark := l.end)
      ensures ok && flowLevel == 0 ==> indents == [] && indent == -1 && Depth(taken + Queue()) == 0
    {
      hide StateFits, Weight, Outside;
      ok := FetchBoundary(Queued(l.token, l.start));
      if ok && l.fails {
        ok := Fail(ScannerError);
      } else if ok {
        mark := l.end;
      }
    }

    /** '[' or '{': may start a simple key, and opens a level of its own for simple keys. */
    method FetchFlowCollectionStart(l: Lexeme) returns (ok: bool)
      requires error == NoError && started && Sound() && Weight(Queued(l.token, l.start)) == 0 && mark == l.start
      modifies this`mark, this`tokens, this`head, this`capacity, this`simpleKeys, this`simpleKeyAllowed,
        this`flowLevel, this`error
      ensures ok == (error == NoError) && (error == Panic <==> old(Panics()))
      ensures ok ==> Sound() && Queue() == old(Queue()) + [Queued(l.token, l.start)]
      ensures ok ==> flowLevel == old(flowLevel) + 1 && simpleKeyAllowed && mark == l.end
      ensures ok ==> Now() == Opened(old(Now()), l)
      ensures ok <==> !old(Panics()) && !old(simpleKeyAllowed && KeyRequired())
      ensures error != ParserError
      ensures ok && old(NoneRequired()) && !(old(flowLevel) == 0 && indent == l.start.column) ==> NoneRequired()
    {
      hide StateFits, Weight;
      KeysThere();
      ghost var q, keys := Queue(), simpleKeys;
      var t := Queued(l.token, l.start);
      ok := SaveSimpleKey();
      if !ok {
        return;
      }
      ghost var key := simpleKeys[|simpleKeys| - 1];
      simpleKeys := simpleKeys + [NoKey];
      flowLevel := flowLevel + 1;
      ghost var allowed := simpleKeyAllowed;
      simpleKeyAllowed := true;
      mark := l.end;
      Append(t);
      if allowed {
        StateSave(taken, q, keys, flowLevel - 1, indents, indent, key, t);
      } else {
        StateNest(taken, q, keys, flowLevel - 1, indents, indent);
        StateAppend(taken, q, keys + [NoKey], keys + [NoKey], flowLevel, flowLevel, indents, indent, t);
      }
    }

    /** ']' or '}': gives up the key of its level, and the level. */
    method FetchFlowCollectionEnd(l: Lexeme) returns (ok: bool)
      requires error == NoError && started && Sound() && Weight(Queued(l.token, l.start)) == 0
      modifies this`mark, this`tokens, this`head, this`capacity, this`simpleKeys, this`simpleKeyAllowed,
        this`flowLevel, this`error
      ensures ok == (error == NoError) == !old(KeyRequired())
      ensures ok ==> Sound() && Queue() == old(Queue()) + [Queued(l.token, l.start)]
      ensures ok ==> flowLevel == Max(old(flowLevel) - 1, 0) && !simpleKeyAllowed && mark == l.end
      ensures ok ==> Now() == Closed(old(Now()), l)
      ensures (!ok ==> error == ScannerError) && (old(NoneRequired()) ==> ok && NoneRequired())
    {
      hide StateFits, Weight;
      KeysThere();
      ghost var q, keys, level := Queue(), simpleKeys, flowLevel;
      var t := Queued(l.token, l.start);
      ok := RemoveSimpleKey();
      if !ok {
        return;
      }
      if flowLevel > 0 {
        flowLevel := flowLevel - 1;
        simpleKeys := simpleKeys[..|simpleKeys| - 1];
      }
      simpleKeyAllowed := false;
      mark := l.end;
      Append(t);
      StateAppend(taken, q, keys, simpleKeys, level, flowLevel, indents, indent, t);
    }

    /** What ',' , '-' , '?' and a block scalar have in common: the key of the level is given up. */
    method FetchWithoutKey(l: Lexeme, allowed: bool) returns (ok: bool)
      requires error == NoError && started && Sound() && Weight(Queued(l.token, l.start)) == 0
      modifies this`mark, this`tokens, this`head, this`capacity, this`simpleKeys, this`simpleKeyAllowed, this`error
      ensures ok == (error == NoError) == (!old(KeyRequired()) && !l.fails)
      ensures ok ==> Sound() && Queue() == old(Queue()) + [Queued(l.token, l.start)]
      ensures ok ==> simpleKeyAllowed == allowed && mark == l.end && Now() == WithoutKey(old(Now()), l, allowed)
      ensures (!ok ==> error == ScannerError) && (old(NoneRequired()) ==> NoneRequired() && ok == !l.fails)
    {
      hide StateFits, Weight;
      KeysThere();
      ghost var q, keys := Queue(), simpleKeys;
      var t := Queued(l.token, l.start);
      ok := RemoveSimpleKey();
      if !ok {
        return;
      }
      simpleKeyAllowed := allowed;
      if l.fails {
        ok := Fail(ScannerError);
        return;
      }
      mark := l.end;
      Append(t);
      StateAppend(taken, q, keys, simpleKeys, flowLevel, flowLevel, indents, indent, t);
    }

    /** A block collection opens at the current column if that is deeper. */
    method OpenBlock(column: nat, token: Token)
      requires error == NoError && started && Sound() && OpensBlock(token)
      modifies this`tokens, this`head, this`capacity, this`indent, this`indents
      ensures Sound() && Now() == Rolled(old(Now()), column, |old(All())|, Queued(token, mark))
      ensures if flowLevel == 0 && old(indent) < column then
                indent == column && indents == old(indents) + [old(indent)] &&
                Queue() == old(Queue()) + [Queued(token, mark)]
              else indent == old(indent) && indents == old(indents) && Queue() == old(Queue())
    {
      hide StateFits;
      ghost var q, ins, ind := Queue(), indents, indent;
      RollIndent(column, -1, token, mark);
      if flowLevel == 0 && ind < column {
        StateRoll(taken, q, simpleKeys, flowLevel, ins, ind, column, Queued(token, mark));
        assert InsertAt(q, |q|, Queued(token, mark)) == q + [Queued(token, mark)];
      }
    }

    /** '-' , and '?' which is like it: opens a collection in the block context. */
    method FetchBlockIndicator(l: Lexeme) returns (ok: bool)
      requires error == NoError && started && Sound() && mark == l.start
      requires l.token.BlockEntryToken? || l.token.KeyToken?
      modifies this`mark, this`tokens, this`head, this`capacity, this`simpleKeys, this`simpleKeyAllowed,
        this`indent, this`indents, this`error
      ensures ok == (error == NoError) == ((flowLevel == 0 ==> old(simpleKeyAllowed)) && !old(KeyRequired()) &&
                                           !l.fails)
      ensures ok ==> Sound() && Queue() != [] && Queue()[|Queue()| - 1] == Queued(l.token, l.start)
      ensures ok ==> Queue()[..|Queue()| - 1] == old(Queue()) +
                     if flowLevel == 0 && old(indent) < l.start.column then [Queued(Opening(l.token), l.start)] else []
      ensures ok ==> simpleKeyAllowed == (l.token.BlockEntryToken? || flowLevel == 0) && mark == l.end
      ensures ok ==> indent == if flowLevel == 0 then Max(old(indent), l.start.column) else old(indent)
      ensures ok ==>
                indents == old(indents) + if flowLevel == 0 && old(indent) < l.start.column then [old(indent)] else []
      ensures (!ok ==> error == ScannerError) && (old(NoneRequired()) ==> NoneRequired())
      ensures old(NoneRequired()) && (flowLevel == 0 ==> old(simpleKeyAllowed)) && !l.fails ==> ok
      ensures ok ==>
                Now() == WithoutKey(Rolled(old(Now()), l.start.column, |old(All())|, Queued(Opening(l.token), l.start)),
                                    l, l.token.BlockEntryToken? || flowLevel == 0)
    {
      hide StateFits, WithoutKey;
      if flowLevel == 0 {
        if !simpleKeyAllowed {
          ok := Fail(ScannerError);
          return;
        }
        OpenBlock(mark.column, Opening(l.token));
      }
      ok := FetchWithoutKey(l, l.token.BlockEntryToken? || flowLevel == 0);
    }

    /**
     ':'.  If a simple key is possible, KEY, and in the block context perhaps BLOCK-MAPPING-START, go into the queue
     right in front of the token the key started with.
     */
    method FetchValue(l: Lexeme) returns (ok: bool)
      requires error == NoError && started && Sound() && mark == l.start && l.token.ValueToken?
      modifies this`mark, this`tokens, this`head, this`capacity, this`simpleKeys, this`simpleKeyAllowed,
        this`indent, this`indents, this`error
      ensures ok == (error == NoError) && (!ok ==> error == ScannerError)
      ensures ok ==> Sound() && mark == l.end
      ensures ok ==> Now() == ValueFetched(old(Now()), l)
      ensures ok <==> old(simpleKeys[flowLevel].possible) || (flowLevel == 0 ==> old(simpleKeyAllowed))
    {
      hide StateFits, Weight, KeyInserted;
      KeysThere();
      var t := Queued(ValueToken, l.start);
      NoWeight(t);
      ok := true;
      if simpleKeys[|simpleKeys| - 1].possible {
        InsertKey();
        simpleKeyAllowed := false;
      } else {
        if flowLevel == 0 {
          if !simpleKeyAllowed {
            ok := Fail(ScannerError);
            return;
          }
          OpenBlock(mark.column, BlockMappingStartToken);
        }
        simpleKeyAllowed := flowLevel == 0;
      }
      mark := l.end;
      ghost var q := Queue();
      KeysThere();
      Append(t);
      StateAppend(taken, q, simpleKeys, simpleKeys, flowLevel, flowLevel, indents, indent, t);
    }

    /** The retroactive insertions for a simple key. */
    method InsertKey()
      requires error == NoError && started && Sound() && simpleKeys[flowLevel].possible
      modifies this`tokens, this`head, this`capacity, this`simpleKeys, this`indent, this`indents
      ensures Sound() && Now().(allowed := false) == KeyInserted(old(Now()))
    {
      hide StateFits, Weight, InsertAt;
      KeysThere();
      KeyThere();
      ghost var q, ins, ind := Queue(), indents, indent;
      var k := simpleKeys[|simpleKeys| - 1];
      var t := Queued(KeyToken, k.mark);
      NoWeight(t);
      StateKey(taken, q, simpleKeys, flowLevel, indents, indent, t);
      InsertedBehind(taken, q, k.number - parsed, t);
      InsertToken(k.number - parsed, t);
      ghost var q1 := Queue();
      RollIndent(k.mark.column, k.number, BlockMappingStartToken, k.mark);
      simpleKeys := simpleKeys[|simpleKeys| - 1 := k.(possible := false)];
      if flowLevel == 0 && ind < k.mark.column {
        var open := Queued(BlockMappingStartToken, k.mark);
        OpeningWeight(open);
        OthersAreLower(old(simpleKeys), taken, q);
        StateOpenKey(taken, q1, simpleKeys, flowLevel, ins, ind, k.number - parsed, k.mark.column, open);
      }
    }

    lemma KeyThere()
      requires started && Sound() && simpleKeys[flowLevel].possible
      ensures var k := simpleKeys[flowLevel];
              && parsed <= k.number < parsed + |Queue()| && Queue()[k.number - parsed].mark == k.mark
              && |simpleKeys| == flowLevel + 1 && k.number < |All()| && All()[k.number].mark == k.mark
    {
    }

    /** What may start a simple key: aliases, anchors, tags, quoted and plain scalars. */
    method FetchContent(l: Lexeme) returns (ok: bool)
      requires error == NoError && started && Sound() && mark == l.start && Weight(Queued(l.token, l.start)) == 0
      modifies this`mark, this`tokens, this`head, this`capacity, this`simpleKeys, this`simpleKeyAllowed, this`error
      ensures ok == (error == NoError) && (error == Panic <==> old(Panics()))
      ensures ok ==> Sound() && Queue() == old(Queue()) + [Queued(l.token, l.start)]
      ensures ok ==> simpleKeyAllowed == l.blank && mark == l.end
      ensures ok ==> Now() == Put(Saved(old(Now())).(allowed := l.blank, mark := l.end), Queued(l.token, l.start))
      ensures ok <==> !old(Panics()) && !old(simpleKeyAllowed && KeyRequired()) && !l.fails
      ensures error != ParserError
      ensures ok && old(NoneRequired()) && !(flowLevel == 0 && indent == l.start.column) ==> NoneRequired()
    {
      hide StateFits, Weight;
      KeysThere();
      ghost var q, keys := Queue(), simpleKeys;
      var t := Queued(l.token, l.start);
      ok := SaveSimpleKey();
      if !ok {
        return;
      }
      ghost var allowed := simpleKeyAllowed;
      simpleKeyAllowed := false;
      if l.fails {
        ok := Fail(ScannerError);
        return;
      }
      if l.blank {
        simpleKeyAllowed := true;
      }
      mark := l.end;
      Append(t);
      if allowed {
        StateSave(taken, q, keys, flowLevel, indents, indent, simpleKeys[flowLevel], t);
      } else {
        StateAppend(taken, q, keys, keys, flowLevel, flowLevel, indents, indent, t);
      }
    }

    // ---------------------------------------------------------------- the next token

    /** Blanks and comments in front of the lexeme; in the block context a new line allows a simple key. */
    method MoveTo(l: Lexeme)
      modifies this`mark, this`simpleKeyAllowed
      ensures mark == l.start && simpleKeyAllowed == (old(simpleKeyAllowed) || (l.newLine && flowLevel == 0))
    {
      mark := l.start;
      if l.newLine && flowLevel == 0 {
        simpleKeyAllowed := true;
      }
    }

    /** What comes before every token: stale keys go, and collections deeper than the column are closed. */
    method Prepare(l: Lexeme) returns (ok: bool)
      requires error == NoError && started && Sound()
      modifies this`mark, this`tokens, this`head, this`capacity, this`simpleKeys, this`simpleKeyAllowed,
        this`indent, this`indents, this`error
      ensures ok == (error == NoError) == !old(KeyLost(l.start))
      ensures (!ok ==> error == ScannerError) && (old(NoneRequired()) ==> ok && NoneRequired())
      ensures ok ==> KeyRequired() == old(RequiredAt(l.start)) && KeyPossible() == old(PossibleAt(l.start))
      ensures ok ==> Sound() && mark == l.start && (flowLevel == 0 ==> indent <= l.start.column)
      ensures simpleKeyAllowed == (old(simpleKeyAllowed) || (l.newLine && flowLevel == 0))
      ensures ok ==> Now() == Prepared(old(Now()), l)
      ensures ok && flowLevel > 0 ==> indents == old(indents) && indent == old(indent)
      ensures ok && flowLevel == 0 ==> UnrolledTo(old(indents), old(indent), l.start.column, indents, indent)
    {
      hide StateFits, Unrolled, Fresh;
      MoveTo(l);
      ghost var keys := simpleKeys;
      ok := StaleSimpleKeys();
      if !ok {
        return;
      }
      StaleFits(keys, simpleKeys, taken, Queue(), flowLevel, indents, indent);
      UnrollIndent(mark.column);
    }

    /** The fetcher for what stands at the mark. */
    method Dispatch(l: Lexeme) returns (ok: bool)
      requires error == NoError && started && Sound() && mark == l.start && LexemeFits(l)
      modifies this`mark, this`tokens, this`head, this`capacity, this`simpleKeys, this`simpleKeyAllowed,
        this`flowLevel, this`indent, this`indents, this`error
      ensures ok == (error == NoError)
      ensures error == if MaySaveKey(l.token) && old(Panics()) then Panic
                       else if old(Refuses(l, simpleKeyAllowed, KeyRequired(), KeyPossible())) then ScannerError
                       else NoError
      ensures ok ==> Sound() && Now() == Dispatched(old(Now()), l)
    {
      hide StateFits, Weight, LexemeFits, Opened, ValueFetched, Saved, Put;
      LexicalWeight(l);
      OnlyContentFails(l);
      KeysThere();
      if MaySaveKey(l.token) {
        if IsContent(l.token) {
          ok := FetchContent(l);
        } else {
          ok := FetchFlowCollectionStart(l);
        }
      } else if l.token.ValueToken? {
        ok := FetchValue(l);
      } else {
        ok := DispatchIndicator(l);
      }
    }

    /** What cannot start a simple key. */
    method DispatchIndicator(l: Lexeme) returns (ok: bool)
      requires error == NoError && started && Sound() && mark == l.start && LexemeFits(l)
      requires !MaySaveKey(l.token) && !l.token.ValueToken?
      modifies this`mark, this`tokens, this`head, this`capacity, this`simpleKeys, this`simpleKeyAllowed,
        this`flowLevel, this`indent, this`indents, this`error
      ensures ok == (error == NoError)
      ensures error == if old(Refuses(l, simpleKeyAllowed, KeyRequired(), KeyPossible())) then ScannerError else NoError
      ensures ok ==> Sound() && Now() == Dispatched(old(Now()), l)
    {
      hide StateFits, Weight, Closed, WithoutKey, Outside, Rolled;
      LexicalWeight(l);
      if l.token.StreamEndToken? {
        ok := FetchStreamEnd();
      } else if l.token.FlowSequenceEndToken? || l.token.FlowMappingEndToken? {
        ok := FetchFlowCollectionEnd(l);
      } else if l.token.FlowEntryToken? || l.token.ScalarToken? {
        ok := FetchWithoutKey(l, true);
      } else if IsBlockIndicator(l.token) {
        ok := FetchBlockIndicator(l);
      } else {
        ok := FetchOutside(l);
      }
    }

    /** fetch_next_token: the first one is STREAM-START and reads nothing. */
    method FetchNextToken(l: Lexeme) returns (ok: bool)
      requires error == NoError && Sound() && LexemeFits(l)
      modifies this`mark, this`tokens, this`head, this`capacity, this`simpleKeys, this`simpleKeyAllowed,
        this`flowLevel, this`indent, this`indents, this`error, this`started
      ensures ok == (error == NoError) && error == old(Verdict(l)) && (old(started) ==> started)
      ensures !old(started) ==> mark == old(mark)
      ensures ok ==> started && Sound()
      ensures ok ==> Now() == if old(started) then Fetched(old(Now()), l) else Started(mark)
    {
      hide StateFits, LexemeFits, IndentsFit, Refuses, Dispatched, Prepared;
      if !started {
        FetchStreamStart();
        return true;
      }
      ghost var ins, ind := indents, indent;
      LevelsFit();
      ok := Prepare(l);
      if !ok {
        return;
      }
      if flowLevel == 0 { UnrolledMeets(ins, ind, l.start.column, indents, indent); }
      ok := Dispatch(l);
    }

    /**
     fetch_more_tokens: fetches until the queue has a head that no potential key can still insert a token in front
     of.  Without more input reading fails.
     */
    method FetchMoreTokens(input: seq<Lexeme>) returns (ok: bool, used: nat)
      requires error == NoError && Sound() && Faithful() && !available && forall l <- input :: LexemeFits(l)
      modifies this`mark, this`tokens, this`head, this`capacity, this`simpleKeys, this`simpleKeyAllowed,
        this`flowLevel, this`indent, this`indents, this`error, this`started, this`available, this`read, this`origin
      ensures ok == (error == NoError) && used <= |input|
      ensures ok ==> started && Sound() && Faithful() && available && HeadIsFree()
      ensures ok ==> read == old(read) + input[..used] && origin == if old(started) then old(origin) else old(mark)
      ensures ok && used == 0 && old(started) ==> Queue() == old(Queue())
    {
      hide StateFits, LexemeFits, Faithful;
      used := 0;
      while true
        invariant error == NoError && Sound() && Faithful() && !available && used <= |input|
        invariant old(started) ==> started
        invariant read == old(read) + input[..used]
        invariant origin == if started && !old(started) then old(mark) else old(origin)
        invariant !started ==> mark == old(mark)
        invariant used == 0 && old(started) ==> Queue() == old(Queue())
        decreases |input| - used, !started
      {
        var need := false;
        if head == |tokens| {
          need := true;
        } else {
          ok, need := HeadMayBeKey();
          if !ok {
            return;
          }
        }
        if !need {
          break;
        }
        if started && used == |input| {
          ok := Fail(ScannerError);
          return;
        }
        var next := if started then input[used] else Lexeme(false, mark, StreamEndToken, mark, false, false);
        if started {
          used := used + 1;
        }
        BlankLexeme(mark);
        if !started { NothingRead(); }
        ok := FetchRead(next);
        if !ok {
          return;
        }
        assert used > 0 ==> input[..used] == input[..used - 1] + [input[used - 1]];
      }
      available := true;
      ok := true;
    }

    /** The next token, with the lexeme noted. */
    method FetchRead(l: Lexeme) returns (ok: bool)
      requires error == NoError && Sound() && Faithful() && LexemeFits(l)
      modifies this`mark, this`tokens, this`head, this`capacity, this`simpleKeys, this`simpleKeyAllowed,
        this`flowLevel, this`indent, this`indents, this`error, this`started, this`read, this`origin
      ensures ok == (error == NoError) && (!ok ==> read == old(read))
      ensures ok ==> started && Sound() && Faithful()
      ensures ok && old(started) ==> read == old(read) + [l] && origin == old(origin)
      ensures ok && !old(started) ==> read == [] && origin == mark == old(mark)
    {
      hide StateFits, LexemeFits, Verdict, Weaves, Fetched, Started, InOrder;
      ghost var v, begun := Now(), started;
      ok := FetchNextToken(l);
      if ok && begun {
        ScanAllStep(origin, read, l);
        FetchedGrows(v, l);
        GrownWeaves(v.tokens, All(), Readings(read), Reading(l));
        if InOrder(origin, read + [l]) { FetchedAlike(ScanAll(Started(origin), read), v.keys, l); }
        read := read + [l];
      } else if ok {
        origin := mark;
        StartedWeaves(mark);
      }
    }

    /**
     The run of a scanner whose tokens are taken one by one up to the end of the stream.  What has been taken and what
     is left are the tokens that the steps make of the lexemes read.  Without the made ones they are those of the
     lexemes, in their order; and no block collection is closed that has not been opened.
     */
    method ScanStream(input: seq<Lexeme>) returns (ok: bool, used: nat)
      requires error == NoError && Sound() && Faithful() && !started && !available
      requires forall l <- input :: LexemeFits(l)
      modifies this
      ensures ok == (error == NoError) && used <= |input|
      ensures ok ==> taken != [] && taken[|taken| - 1].token.StreamEndToken? && head <= |tokens|
      ensures ok && InOrder(old(mark), input) ==> All() == ScanAll(Started(old(mark)), input[..used]).tokens
      ensures ok ==> Weaves(All(), Readings(input[..used])) && Plain(All()) == Plain(Readings(input[..used]))
      ensures ok ==> Balanced(All())
    {
      hide StateFits, LexemeFits, Balanced, Faithful, InOrder, Weaves, Fetched;
      used := 0;
      ok := true;
      var ended := false;
      NothingRead();
      while !ended
        invariant ok && error == NoError && Sound() && Faithful() && !available && used <= |input|
        invariant read == input[..used] && (started ==> origin == old(mark)) && (!started ==> mark == old(mark))
        invariant ended ==> started && taken != [] && taken[|taken| - 1].token.StreamEndToken?
        decreases |input| - used, !started, |Queue()|, !ended
      {
        var n;
        ok, n := FetchMoreTokens(input[used..]);
        if !ok {
          return;
        }
        assert input[..used + n] == input[..used] + input[used..][..n];
        used := used + n;
        ended := SkipToken();
      }
      StreamIsFaithful(input, used);
      StateBalances();
    }

    lemma NothingRead()
      requires !started && head <= |tokens| && Faithful()
      ensures read == []
    {
    }

    lemma StreamIsFaithful(input: seq<Lexeme>, used: nat)
      requires started && head <= |tokens| && Faithful() && used <= |input| && read == input[..used]
      ensures InOrder(origin, input) ==> All() == ScanAll(Started(origin), input[..used]).tokens
      ensures Weaves(All(), Readings(input[..used])) && Plain(All()) == Plain(Readings(input[..used]))
    {
      hide Weaves, Started, ScanAll;
      WovenAlike(All(), Readings(read));
      if InOrder(origin, input) {
        assert InOrder(origin, read) by { PrefixInOrder(origin, input, used); }
      }
    }

    lemma StateBalances()
      requires started && Sound()
      ensures Balanced(taken + Queue())
    {
    }

    /** A dash that opens a deeper sequence. */
    method FetchDash(l: Lexeme)
      requires error == NoError && started && Sound() && NoneRequired() && l.token.BlockEntryToken? && LexemeFits(l)
      requires flowLevel == 0 && simpleKeyAllowed && indent < l.start.column
      modifies this`mark, this`tokens, this`head, this`capacity, this`simpleKeys, this`simpleKeyAllowed,
        this`indent, this`indents, this`error
      ensures error == NoError && Sound() && NoneRequired() && simpleKeyAllowed
      ensures indents == old(indents) + [old(indent)] && indent == l.start.column
    {
      hide StateFits;
      var ok := Prepare(l);
      ok := FetchBlockIndicator(l);
    }

    /** Whether a potential key that is not stale points at the head. */
    method HeadMayBeKey() returns (ok: bool, need: bool)
      requires error == NoError && Sound() && head < |tokens|
      modifies this`simpleKeys, this`error
      ensures ok == (error == NoError)
      ensures ok ==> Sound() && (!need ==> HeadIsFree()) && (old(Faithful()) ==> Faithful())
    {
      hide StateFits, Fresh, Weaves, InOrder, ScanAll, Started;
      ghost var keys := simpleKeys;
      need := false;
      ok := StaleSimpleKeys();
      if !ok {
        return;
      }
      if started { StaleFits(keys, simpleKeys, taken, Queue(), flowLevel, indents, indent); }
      GivenUpAgain(ScanAll(Started(origin), read).keys, keys, mark);
      for i := 0 to |simpleKeys|
        invariant forall j :: 0 <= j < i && simpleKeys[j].possible ==> simpleKeys[j].number != parsed
      {
        if simpleKeys[i].possible && simpleKeys[i].number == parsed {
          need := true;
          break;
        }
      }
    }

    /** skip_token: the parser takes the head. */
    method SkipToken() returns (ended: bool)
      requires error == NoError && Valid() && available
      modifies this`available, this`parsed, this`head, this`taken
      ensures Sound() && !available && parsed == old(parsed) + 1
      ensures taken == old(taken) + [old(Queue()[0])] && Queue() == old(Queue())[1..] && All() == old(All())
      ensures old(Faithful()) ==> Faithful()
      ensures ended == old(Queue()[0]).token.StreamEndToken?
    {
      hide StateFits, Weaves, ScanAll, Started, InOrder, GivenUpSince;
      available := false;
      parsed := parsed + 1;
      ended := tokens[head].token.StreamEndToken?;
      TakeHead();
      taken := taken + [tokens[head]];
      assert tokens[head + 1..] == tokens[head..][1..];
      head := head + 1;
    }

    lemma TakeHead()
      requires error == NoError && head < |tokens| && |taken| + 1 == parsed
      requires started ==> StateFits(taken, Queue(), simpleKeys, flowLevel, indents, indent)
      requires forall i :: 0 <= i < |simpleKeys| && simpleKeys[i].possible ==> simpleKeys[i].number != |taken|
      ensures started ==> StateFits(taken + [Queue()[0]], Queue()[1..], simpleKeys, flowLevel, indents, indent)
    {
      if started { StateTake(taken, Queue(), simpleKeys, flowLevel, indents, indent); }
    }
  }

  lemma FirstState(t: Queued)
    requires Weight(t) == 0
    ensures StateFits([], [t], [NoKey], 0, [], -1)
  {
    assert [] + [t] == [t];
    DepthAppend([], t);
    BalancedAppend([], t);
  }

  lemma InsertedBehind(a: seq<Queued>, b: seq<Queued>, p: nat, t: Queued)
    requires p <= |b|
    ensures ScanSteps.InsertToken(a + b, |a| + p, t) == a + InsertAt(b, p, t)
  {
  }

  lemma NoWeight(t: Queued)
    ensures t.token.ValueToken? || t.token.KeyToken? ==> Weight(t) == 0
  {
  }

  lemma OpeningWeight(t: Queued)
    ensures OpensBlock(t.token) ==> Weight(t) == 1
  {
  }

  lemma OthersAreLower(keys: seq<SimpleKey>, taken: seq<Queued>, queue: seq<Queued>)
    requires keys != [] && KeysFit(keys, |taken|, queue) && keys[|keys| - 1].possible
    ensures var top := |keys| - 1;
            forall i :: 0 <= i < top && keys[i].possible ==> keys[i].number < keys[top].number
  {
  }

  lemma StaleFits(keys: seq<SimpleKey>, now: seq<SimpleKey>, taken: seq<Queued>, queue: seq<Queued>, flowLevel: nat,
                  indents: seq<int>, indent: int)
    requires StateFits(taken, queue, keys, flowLevel, indents, indent) && |now| == |keys|
    requires forall i :: 0 <= i < |now| ==> now[i] == keys[i] || now[i] == keys[i].(possible := false)
    ensures StateFits(taken, queue, now, flowLevel, indents, indent)
  {
    hide Balanced, Depth, IndentsFit;
    WeakerFits(keys, now, |taken|, queue);
  }

  /** STREAM-START is made. */
  lemma StartedWeaves(m: Mark)
    ensures Weaves(Started(m).tokens, Readings([])) && ScanAll(Started(m), []) == Started(m)
  {
    assert Started(m).tokens[..0] == [];
  }

  lemma GivenUpAgain(keys: seq<SimpleKey>, now: seq<SimpleKey>, m: Mark)
    ensures GivenUpSince(keys, now, m) ==> GivenUpSince(keys, Fresh(now, m), m)
  {
    if GivenUpSince(keys, now, m) { FreshAgain(keys, now, m, m); }
  }

  lemma PrefixInOrder(m: Mark, ls: seq<Lexeme>, k: nat)
    requires k <= |ls| && InOrder(m, ls)
    ensures InOrder(m, ls[..k])
  {
    forall i | 0 <= i < k ensures NotBefore(MarkAt(m, ls[..k], i), ls[..k][i].start) {
      assert NotBefore(MarkAt(m, ls, i), ls[i].start);
    }
  }

  lemma OnlyContentFails(l: Lexeme)
    requires LexemeFits(l)
    ensures l.token.FlowSequenceStartToken? || l.token.FlowMappingStartToken? || l.token.ValueToken? ==> !l.fails
  {
  }

  lemma LexicalWeight(l: Lexeme)
    requires LexemeFits(l)
    ensures Weight(Queued(l.token, l.start)) == 0
  {
  }

  lemma BlankLexeme(m: Mark)
    ensures LexemeFits(Lexeme(false, m, StreamEndToken, m, false, false))
  {
  }

  // ---------------------------------------------------------------- how fetching fails

  /** Out of reach: on an earlier line, or more than 1024 characters back. */
  predicate OutOfReach(k: SimpleKey, l: Lexeme) {
    k.possible && (k.mark.line < l.start.line || l.start.index > k.mark.index + 1024)
  }

  /**
   Exactly how the next lexeme fails.  A key that must become one is out of reach; or, as a panic, a key begins at a
   level where none is allowed; or reading fails; or a key that must become one is given up; or '-', '?' or a VALUE
   without key stands in the block context where none is allowed.
   */
  lemma FailsExactly(s: Scanner, l: Lexeme)
    requires s.started && s.Sound() && LexemeFits(l)
    ensures var k := TopKey(s.simpleKeys);
            var live, block := k.possible && !OutOfReach(k, l), s.flowLevel == 0;
            var allowed := s.simpleKeyAllowed || (l.newLine && block);
            var keys := s.simpleKeys;
            var lost := exists i :: 0 <= i < |keys| && keys[i].required && OutOfReach(keys[i], l);
            var panics := !lost && StartsKey(l.token) && block && !allowed && l.start.column in s.indents + [s.indent];
            && (s.Verdict(l) == Panic <==> panics)
            && (s.Verdict(l) == ScannerError <==>
                  || lost
                  || (!panics && l.fails)
                  || (live && k.required && (if StartsKey(l.token) then allowed else !l.token.ValueToken?))
                  || ((l.token.BlockEntryToken? || l.token.KeyToken?) && block && !allowed)
                  || (l.token.ValueToken? && !live && block && !allowed))
            && (s.Verdict(l) == NoError || s.Verdict(l) == Panic || s.Verdict(l) == ScannerError)
  {
    s.KeysThere();
  }

  // ---------------------------------------------------------------- the check that panics

  /** The position `column - m.column` characters on in the same line. */
  function Along(m: Mark, column: nat): Mark
    requires m.column <= column
  {
    Mark(m.index + (column - m.column), m.line, column)
  }

  /** The lexeme stands in the same line, behind what has been read. */
  predicate SameLine(m: Mark, l: Lexeme) {
    !l.newLine && m.column <= l.start.column && l.start == Along(m, l.start.column)
  }

  /** The next token, if it stands in the same line, may be one that panics. */
  ghost predicate PanicAhead(s: Scanner)
    reads s
  {
    exists l :: LexemeFits(l) && SameLine(s.mark, l) && s.Verdict(l) == Panic
  }

  /** A level ahead in the line can be reached without losing a key that must become one. */
  predicate LevelAhead(s: Scanner, c: int)
    reads s
  {
    (c == s.indent || c in s.indents) && s.mark.column <= c && !s.KeyLost(Along(s.mark, c))
  }

  /**
   The comment says that a required key stands first in its line, so that the panic cannot happen.  For the first
   token of a line that is so.  Behind another token it can happen, exactly when no key is allowed in the block context
   and one of the levels is a column still ahead in the line.
   */
  lemma PanicIffLevelAhead(s: Scanner)
    requires s.started
    ensures PanicAhead(s) <==> s.flowLevel == 0 && !s.simpleKeyAllowed && exists c :: LevelAhead(s, c)
    ensures forall l: Lexeme :: l.newLine ==> s.Verdict(l) != Panic
  {
    if s.flowLevel == 0 && !s.simpleKeyAllowed && exists c :: LevelAhead(s, c) {
      var c :| LevelAhead(s, c);
      var l := Lexeme(false, Along(s.mark, c), AliasToken("x"), Along(s.mark, c), false, false);
      assert LexemeFits(l) && SameLine(s.mark, l) && s.Verdict(l) == Panic;
    }
    if PanicAhead(s) {
      var l :| LexemeFits(l) && SameLine(s.mark, l) && s.Verdict(l) == Panic;
      assert LevelAhead(s, l.start.column);
    }
  }

  /**
   While no key must become one, a level is ahead exactly if the last token ended at or left of the current indent.
   */
  lemma PanicIffLeftOfIndent(s: Scanner)
    requires s.started && s.Sound() && s.NoneRequired()
    ensures PanicAhead(s) <==> s.flowLevel == 0 && !s.simpleKeyAllowed && s.mark.column <= s.indent
  {
    hide StateFits;
    PanicIffLevelAhead(s);
    s.LevelsFit();
    if s.mark.column <= s.indent { assert LevelAhead(s, s.indent); }
  }

  /** The tokens of the line " - - [": two dashes, in columns 1 and 3, and the bracket in column 5. */
  method ScanFirstLine() returns (s: Scanner)
    ensures fresh(s) && s.error == NoError && s.started && s.Sound() && s.NoneRequired()
    ensures s.indents == [-1, 1] && s.indent == 3 && s.flowLevel == 1
  {
    hide StateFits, Balanced, Depth;
    s := new Scanner(16);
    s.FetchStreamStart();
    var dash := Lexeme(false, Mark(1, 0, 1), BlockEntryToken, Mark(2, 0, 2), false, false);
    var deeper := Lexeme(false, Mark(3, 0, 3), BlockEntryToken, Mark(4, 0, 4), false, false);
    var open := Lexeme(false, Mark(5, 0, 5), FlowSequenceStartToken, Mark(6, 0, 6), false, false);
    s.FetchDash(dash);
    s.FetchDash(deeper);
    assert s.indents == [-1, 1] && s.indent == 3;
    var ok := s.Prepare(open);
    ok := s.FetchFlowCollectionStart(open);
  }

  /**
   The panic is reachable, also for a level that is not the current one: the second line is "]*x", with the alias in
   the column of the first dash.
   */
  method PanicIsReachable() returns (s: Scanner)
    ensures s.error == Panic
  {
    hide StateFits, Balanced, Depth;
    s := ScanFirstLine();
    var close := Lexeme(true, Mark(7, 1, 0), FlowSequenceEndToken, Mark(8, 1, 1), false, false);
    var alias := Lexeme(false, Mark(8, 1, 1), AliasToken("x"), Mark(10, 1, 3), false, false);
    var ok := s.Prepare(close);
    ok := s.FetchFlowCollectionEnd(close);
    assert s.indents[1] == 1 && s.Verdict(alias) == Panic;
    ok := s.FetchNextToken(alias);
  }
}
