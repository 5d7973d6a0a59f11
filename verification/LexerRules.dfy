/** What the two lexers make of a command, said of its bytes and not of the lexers: which bytes are
    quoted, where words and segments end, and what the strict lexer accepts. */
module LexerRules {
  import opened Lexers

  /** How a byte stands: unquoted, within quotes, or after a backslash in either. */
  datatype Mode = Plain | Single | Double | Escaped | DoubleEscaped

  function After(mode: Mode, b: char): (next: Mode) {
    match mode
    case Plain => if b == '\'' then Single else if b == '"' then Double else if b == '\\' then Escaped else Plain
    case Single => if b == '\'' then Plain else Single
    case Double => if b == '"' then Plain else if b == '\\' then DoubleEscaped else Double
    case Escaped => Plain
    case DoubleEscaped => Double
  }

  /** How the byte at `i` stands; at the end, how the command is left. */
  function ModeAt(c: string, i: nat): (mode: Mode)
    requires i <= |c|
  {
    if i == 0 then Plain else After(ModeAt(c, i - 1), c[i - 1])
  }

  datatype Lexer = Strict | Splitting

  /** The byte at `i` ends a segment, for the lexer that splits a command. */
  predicate Ends(c: string, i: nat)
    requires i < |c|
  {
    ModeAt(c, i) == Plain && c[i] in {'\n', ';', '|', '&', '(', ')'}
  }

  /** The byte at `i` separates words: white space, and for the splitting lexer redirections and
      the ends of segments too. */
  predicate Separates(lexer: Lexer, c: string, i: nat)
    requires i < |c|
  {
    && ModeAt(c, i) == Plain
    && (c[i] in {' ', '\t', '\r', '\n'} || (lexer == Splitting && (c[i] in {'<', '>'} || Ends(c, i))))
  }

  predicate Breaks(c: string, i: nat)
    requires i < |c|
  {
    ModeAt(c, i) == Plain && c[i] == '\n'
  }

  /** The byte at `i` begins to quote. */
  predicate Quotes(c: string, i: nat)
    requires i < |c|
  {
    ModeAt(c, i) == Plain && c[i] in {'\'', '"', '\\'}
  }

  /** The byte at `i` is one of a word's own: neither quoting nor separating. */
  predicate Literal(lexer: Lexer, c: string, i: nat)
    requires i < |c|
  {
    match ModeAt(c, i)
    case Plain => !Quotes(c, i) && !Separates(lexer, c, i)
    case Single => c[i] != '\''
    case Double => c[i] != '"' && c[i] != '\\'
    case _ => true
  }

  /** The own bytes from `a` to `b`. */
  function Own(lexer: Lexer, c: string, a: nat, b: nat): (text: string)
    requires b <= |c|
    decreases b
  {
    if b <= a then "" else if Literal(lexer, c, b - 1) then Own(lexer, c, a, b - 1) + [c[b - 1]] else Own(lexer, c, a, b - 1)
  }

  /** Where the word that reaches up to `i` begins: `i` itself when none does. */
  function WordStart(lexer: Lexer, c: string, i: nat): (a: nat)
    requires i <= |c|
    ensures a <= i
  {
    if i == 0 || Separates(lexer, c, i - 1) then i else WordStart(lexer, c, i - 1)
  }

  /** The number of line breaks before `i`. */
  function LineOf(c: string, i: nat): (n: nat)
    requires i <= |c|
  {
    if i == 0 then 0 else LineOf(c, i - 1) + (if Breaks(c, i - 1) then 1 else 0)
  }

  ghost predicate AnyQuote(c: string, a: nat, b: nat)
    requires b <= |c|
  {
    exists j | a <= j < b :: Quotes(c, j)
  }

  /** The word that reaches up to `i`. */
  ghost function WordAt(lexer: Lexer, c: string, i: nat): (t: Token)
    requires i <= |c|
  {
    Token(Own(lexer, c, WordStart(lexer, c, i), i), AnyQuote(c, WordStart(lexer, c, i), i), LineOf(c, i))
  }

  /** The words that end at a separator before `i`. */
  ghost function Closed(c: string, i: nat): (words: seq<Token>)
    requires i <= |c|
    decreases i, 0
  {
    if i == 0 then []
    else if Separates(Strict, c, i - 1) then WordsBefore(c, i - 1)
    else Closed(c, i - 1)
  }

  /** The runs of bytes between separators up to `i`, each by its own bytes. */
  ghost function WordsBefore(c: string, i: nat): (words: seq<Token>)
    requires i <= |c|
    decreases i, 1
  {
    if WordStart(Strict, c, i) < i then Closed(c, i) + [WordAt(Strict, c, i)] else Closed(c, i)
  }

  /** Nothing at `i` asks the shell for more than a word: no expansion, comment, operator or
      redirection, no line continued, and nothing after the line. */
  predicate Tame(c: string, i: nat)
    requires i < |c|
  {
    match ModeAt(c, i)
    case Plain =>
      && c[i] !in {'$', '`', '*', '?', '[', '{', '}', '#', ';', '|', '&', '(', ')', '<', '>'}
      && (c[i] == '~' ==> Own(Strict, c, WordStart(Strict, c, i), i) != "")
      && (c[i] == '\n' ==> AllSpace(c[i + 1..]))
    case Single => true
    case Double => c[i] != '$' && c[i] != '`'
    case Escaped => c[i] != '\n'
    case DoubleEscaped => c[i] != '\n'
  }

  predicate IsLetter(b: char) {
    'A' <= b <= 'Z' || 'a' <= b <= 'z' || b == '_'
  }

  /** Up to `n` the word is a variable's name, or the name an exported function goes by. */
  predicate Assigned(word: string, n: nat)
    requires 0 < n < |word|
  {
    || (IsLetter(word[0]) && forall k | 0 <= k < n :: IsLetter(word[k]) || '0' <= word[k] <= '9')
    || (12 <= n && word[..10] == "BASH_FUNC_" && word[n - 2..n] == "%%" && '=' !in word[..n])
  }

  /** The word assigns to what it names. */
  predicate Assigns(word: string) {
    exists n | 0 < n < |word| :: word[n] == '=' && Assigned(word, n)
  }

  lemma AssignsExactly(word: string)
    ensures IsAssignment(word) <==> Assigns(word)
  {
    if IsAssignment(word) {
      var n := IndexOf(word, '=');
      NameForm(word, n);
      assert 0 < n < |word| && word[n] == '=';
    }
    if Assigns(word) {
      var n :| 0 < n < |word| && word[n] == '=' && Assigned(word, n);
      NoneBefore(word, n);
      assert IndexOf(word, '=') == n;
      NameForm(word, n);
    }
  }

  lemma NoneBefore(word: string, n: nat)
    requires 0 < n < |word| && Assigned(word, n)
    ensures forall k | 0 <= k < n :: word[k] != '='
  {
    assert forall k | 0 <= k < n :: word[k] == word[..n][k];
  }

  lemma NameForm(word: string, n: nat)
    requires n < |word| && forall k | 0 <= k < n :: word[k] != '='
    ensures var name := word[..n];
            (|| (name != "" && !('0' <= name[0] <= '9') && forall k | 0 <= k < |name| :: IsNameChar(name[k]))
             || (|name| >= 12 && "BASH_FUNC_" <= name && name[|name| - 2..] == "%%")) <==> n > 0 && Assigned(word, n)
  {
    var name := word[..n];
    assert forall k | 0 <= k < n :: name[k] == word[k];
    if n >= 12 {
      assert name[n - 2..] == word[n - 2..n];
      assert word[..10] == name[..10];
    }
  }

  /** From `i` on all is tame; all quotes are closed, and the first word is no assignment. */
  ghost predicate SimpleFrom(c: string, i: nat) {
    && (forall j | i <= j < |c| :: Tame(c, j))
    && ModeAt(c, |c|) == Plain
    && var words := WordsBefore(c, |c|);
       words != [] && !Assigns(words[0].text)
  }

  /** An unquoted here-document operator stands at `op`, and all from `i` up to it is tame. */
  predicate HereFrom(c: string, i: nat, op: nat) {
    && i <= op && op + 1 < |c| && c[op] == '<' && c[op + 1] == '<' && ModeAt(c, op) == Plain
    && forall j | i <= j < op :: Tame(c, j)
  }

  /** What the bytes from `i` on say the lexer finds. */
  ghost predicate LexedFrom(c: string, i: nat, lexed: Lexed) {
    match lexed
    case Words(tokens) => SimpleFrom(c, i) && tokens == WordsBefore(c, |c|)
    case HereDocument(words, op) => HereFrom(c, i, op) && words == WordsBefore(c, op)
    case Rejected(_) => !SimpleFrom(c, i) && forall op :: !HereFrom(c, i, op)
  }

  // ----- the lexer in step with the bytes -----

  predicate ModeIs(quote: Option<char>, mode: Mode) {
    match mode
    case Plain => quote == None
    case Single => quote == Some('\'')
    case Double => quote == Some('"')
    case _ => false
  }

  ghost predicate Reading(c: string, i: nat, st: Lexing)
    requires i <= |c|
  {
    && ModeIs(st.quote, ModeAt(c, i)) && (st.quote.Some? ==> st.started)
    && st.tokens == Closed(c, i)
    && (st.started <==> WordStart(Strict, c, i) < i)
    && Token(st.text, st.quoted, st.line) == WordAt(Strict, c, i)
  }

  /** The state after one more byte. */
  lemma Advances(lexer: Lexer, c: string, i: nat)
    requires i < |c|
    ensures ModeAt(c, i + 1) == After(ModeAt(c, i), c[i])
    ensures LineOf(c, i + 1) == LineOf(c, i) + (if Breaks(c, i) then 1 else 0)
    ensures Separates(lexer, c, i) ==>
              WordStart(lexer, c, i + 1) == i + 1 && WordAt(lexer, c, i + 1) == Token("", false, LineOf(c, i + 1))
    ensures !Separates(lexer, c, i) ==>
              && WordStart(lexer, c, i + 1) == WordStart(lexer, c, i) < i + 1
              && WordAt(lexer, c, i + 1) == Token(if Literal(lexer, c, i) then WordAt(lexer, c, i).text + [c[i]] else WordAt(lexer, c, i).text,
                                                  WordAt(lexer, c, i).quoted || Quotes(c, i), LineOf(c, i))
  {
    hide After;
    if !Separates(lexer, c, i) {
      var a := WordStart(lexer, c, i);
      assert AnyQuote(c, a, i + 1) <==> AnyQuote(c, a, i) || Quotes(c, i);
      assert Own(lexer, c, a, i + 1) == (if Literal(lexer, c, i) then Own(lexer, c, a, i) + [c[i]] else Own(lexer, c, a, i));
    }
  }

  lemma StrictAdvances(c: string, i: nat)
    requires i < |c|
    ensures Separates(Strict, c, i) ==> Closed(c, i + 1) == WordsBefore(c, i)
    ensures !Separates(Strict, c, i) ==> Closed(c, i + 1) == Closed(c, i)
  {
    hide WordsBefore, Separates;
  }

  /** A byte that begins an escape. */
  predicate Escapes(c: string, i: nat)
    requires i < |c|
  {
    ModeAt(c, i) in {Plain, Double} && c[i] == '\\'
  }

  /** One step of the lexer reads on exactly over tame bytes, an escaped pair at once. */
  ghost predicate ReadsOn(c: string, i: nat, st: Lexing, move: Move)
    requires i < |c|
  {
    && (move.Go? <==> Tame(c, i) && (Escapes(c, i) ==> i + 1 < |c| && Tame(c, i + 1)))
    && (move.Go? ==> move.next == (if Escapes(c, i) then i + 2 else i + 1) && move.next <= |c| && Reading(c, move.next, move.st))
    && (Escapes(c, i) ==> ModeAt(c, i + 1) in {Escaped, DoubleEscaped})
    && (move.Stop? ==>
          && !move.lexed.Words?
          && (move.lexed.HereDocument? <==> ModeAt(c, i) == Plain && i + 1 < |c| && c[i] == '<' && c[i + 1] == '<')
          && (move.lexed.HereDocument? ==> move.lexed == HereDocument(WordsBefore(c, i), i)))
  }

  lemma StepReads(c: string, i: nat, st: Lexing)
    requires i < |c| && Reading(c, i, st)
    ensures ReadsOn(c, i, st, Step(c, i, st))
  {
    if Escapes(c, i) {
      StepEscapes(c, i, st);
    } else if st.quote.Some? {
      StepQuoted(c, i, st);
    } else if c[i] in {' ', '\t', '\r', '\n', '<'} {
      StepBreaks(c, i, st);
    } else {
      StepPlain(c, i, st);
    }
  }

  lemma StepEscapes(c: string, i: nat, st: Lexing)
    requires i < |c| && Reading(c, i, st) && Escapes(c, i)
    ensures ReadsOn(c, i, st, Step(c, i, st))
  {
    hide ModeAt, AnyQuote, Own, AllSpace, LineOf, WordStart, Closed, WordsBefore, Flushed;
    Advances(Strict, c, i);
    StrictAdvances(c, i);
    if i + 1 < |c| {
      Advances(Strict, c, i + 1);
      StrictAdvances(c, i + 1);
    }
  }

  lemma StepQuoted(c: string, i: nat, st: Lexing)
    requires i < |c| && Reading(c, i, st) && !Escapes(c, i) && st.quote.Some?
    ensures ReadsOn(c, i, st, Step(c, i, st))
  {
    hide ModeAt, AnyQuote, Own, AllSpace, LineOf, WordStart, Closed, WordsBefore, Flushed;
    Advances(Strict, c, i);
    StrictAdvances(c, i);
  }

  lemma StepBreaks(c: string, i: nat, st: Lexing)
    requires i < |c| && Reading(c, i, st) && st.quote.None? && c[i] in {' ', '\t', '\r', '\n', '<'}
    ensures ReadsOn(c, i, st, Step(c, i, st))
  {
    hide ModeAt, AllSpace, LineOf, WordStart, Closed;
    Advances(Strict, c, i);
    StrictAdvances(c, i);
    assert st.started || (Own(Strict, c, i, i) == "" && !AnyQuote(c, i, i));
    hide Own, AnyQuote;
  }

  lemma StepPlain(c: string, i: nat, st: Lexing)
    requires i < |c| && Reading(c, i, st) && !Escapes(c, i) && st.quote.None? && c[i] !in {' ', '\t', '\r', '\n', '<'}
    ensures ReadsOn(c, i, st, Step(c, i, st))
  {
    hide ModeAt, AnyQuote, Own, AllSpace, LineOf, WordStart, Closed, WordsBefore, Flushed;
    Advances(Strict, c, i);
    StrictAdvances(c, i);
  }

  lemma {:induction false} LexReads(c: string, i: nat, st: Lexing)
    requires i <= |c| && Reading(c, i, st)
    ensures LexedFrom(c, i, Lex(c, i, st))
    decreases |c| - i
  {
    hide Step, Tame, LexedFrom, ReadsOn, Reading;
    if i == |c| {
      AtEnd(c, st);
    } else {
      var move := Step(c, i, st);
      StepReads(c, i, st);
      if move.Go? {
        GoesOn(c, i, st, move);
        LexReads(c, move.next, move.st);
        LexedSooner(c, i, st, move, Lex(c, move.next, move.st));
      } else {
        StoppedHere(c, i, st, move);
      }
    }
  }

  lemma GoesOn(c: string, i: nat, st: Lexing, move: Move)
    requires i < |c| && ReadsOn(c, i, st, move) && move.Go?
    ensures i < move.next <= |c| && Reading(c, move.next, move.st)
  {
  }

  lemma LexedSooner(c: string, i: nat, st: Lexing, move: Move, lexed: Lexed)
    requires i < |c| && ReadsOn(c, i, st, move) && move.Go? && LexedFrom(c, move.next, lexed)
    ensures LexedFrom(c, i, lexed)
  {
    hide ModeAt, WordsBefore, IsAssignment, Reading, Own, AllSpace, WordStart;
    assert !(ModeAt(c, i) == Plain && c[i] == '<');
    hide Tame;
    forall op ensures HereFrom(c, i, op) ==> HereFrom(c, move.next, op) {
    }
  }

  lemma StoppedHere(c: string, i: nat, st: Lexing, move: Move)
    requires i < |c| && ReadsOn(c, i, st, move) && move.Stop?
    ensures LexedFrom(c, i, move.lexed)
  {
    hide ModeAt, WordsBefore, Assigns, Reading;
  }

  lemma AtEnd(c: string, st: Lexing)
    requires Reading(c, |c|, st)
    ensures LexedFrom(c, |c|, Finish(st))
  {
    hide ModeAt, Closed, WordStart, IsAssignment, Assigns;
    var words := WordsBefore(c, |c|);
    if words != [] {
      AssignsExactly(words[0].text);
    }
  }

  /** The strict lexer accepts exactly the simple commands, and reads in them exactly the runs
      of bytes between separators; it stops for a here-document exactly at the first operator
      with nothing but tame bytes before it; everything else it rejects. */
  lemma LexedExactly(c: string)
    ensures LexedFrom(c, 0, Lex(c, 0, START))
    ensures Lex(c, 0, START).Words? <==> SimpleFrom(c, 0)
    ensures Lex(c, 0, START).HereDocument? <==> exists op :: HereFrom(c, 0, op)
  {
    hide Lex, SimpleFrom, Reading;
    StartReads(c);
    LexReads(c, 0, START);
    if Lex(c, 0, START).HereDocument? && SimpleFrom(c, 0) {
      NotBoth(c, Lex(c, 0, START).operator);
    }
    if Lex(c, 0, START).Words? {
      forall op ensures !HereFrom(c, 0, op) {
        if HereFrom(c, 0, op) {
          NotBoth(c, op);
        }
      }
    }
  }

  lemma StartReads(c: string)
    ensures Reading(c, 0, START)
  {
  }

  /** The operator itself is not tame. */
  lemma NotBoth(c: string, op: nat)
    ensures !(HereFrom(c, 0, op) && SimpleFrom(c, 0))
  {
    hide WordsBefore, Assigns;
    if HereFrom(c, 0, op) {
      assert !Tame(c, op);
    }
  }

  // ----- the lexer that splits -----

  /** A here-document operator stands unquoted at `i`. */
  predicate HereAt(c: string, i: nat) {
    i + 1 < |c| && c[i] == '<' && c[i + 1] == '<' && ModeAt(c, i) == Plain
  }

  /** The end of what is read: a backslash that has nothing after it is dropped. */
  function ReadTo(c: string): (n: nat)
    ensures n <= |c|
  {
    if ModeAt(c, |c|) in {Escaped, DoubleEscaped} then |c| - 1 else |c|
  }

  /** The marked words of the segment that reaches up to `i`, but for one still open. */
  ghost function WordsOf(c: string, i: nat): (words: seq<string>)
    requires i <= |c|
    decreases i, 0
  {
    if i == 0 || Ends(c, i - 1) then []
    else if Separates(Splitting, c, i - 1) then SegmentAt(c, i - 1)
    else WordsOf(c, i - 1)
  }

  /** The marked words of the segment that reaches up to `i`. */
  ghost function SegmentAt(c: string, i: nat): (words: seq<string>)
    requires i <= |c|
    decreases i, 1
  {
    if WordStart(Splitting, c, i) < i then WordsOf(c, i) + [Mark(WordAt(Splitting, c, i))] else WordsOf(c, i)
  }

  /** The segments that have any words and end before `i`. */
  ghost function Ended(c: string, i: nat): (segments: seq<seq<string>>)
    requires i <= |c|
    decreases i, 0
  {
    if i == 0 then []
    else if Ends(c, i - 1) then SegmentsTo(c, i - 1)
    else Ended(c, i - 1)
  }

  /** The segments that have any words, up to `i`. */
  ghost function SegmentsTo(c: string, i: nat): (segments: seq<seq<string>>)
    requires i <= |c|
    decreases i, 1
  {
    if SegmentAt(c, i) != [] then Ended(c, i) + [SegmentAt(c, i)] else Ended(c, i)
  }

  lemma SplitAdvances(c: string, i: nat)
    requires i < |c|
    ensures WordsOf(c, i + 1) == (if Ends(c, i) then [] else if Separates(Splitting, c, i) then SegmentAt(c, i) else WordsOf(c, i))
    ensures Ended(c, i + 1) == (if Ends(c, i) then SegmentsTo(c, i) else Ended(c, i))
  {
    hide SegmentAt, SegmentsTo, Separates;
  }

  ghost predicate Splits(c: string, i: nat, s: Split)
    requires i <= |c|
  {
    && ModeIs(s.quote, ModeAt(c, i)) && (s.quote.Some? ==> s.started)
    && s.words == WordsOf(c, i) && s.segments == Ended(c, i)
    && (s.started <==> WordStart(Splitting, c, i) < i)
    && Token(s.text, s.quoted, LineOf(c, i)) == WordAt(Splitting, c, i)
  }

  /** What the bytes from `i` on say the splitting lexer finds. */
  ghost predicate SplitAs(c: string, i: nat, r: (seq<seq<string>>, bool)) {
    if r.1 then r.0 == SegmentsTo(c, ReadTo(c)) && forall op | i <= op :: !HereAt(c, op)
    else exists op | i <= op :: HereAt(c, op) && (forall j | i <= j < op :: !HereAt(c, j)) && r.0 == Ended(c, op)
  }

  /** One step splits on, an escaped pair or a run of separators at once, but for a backslash at
      the end; it stops exactly at a here-document. */
  ghost predicate SplitsOn(c: string, i: nat, s: Split, r: Option<(nat, Split)>)
    requires i < |c|
  {
    && (r.None? <==> HereAt(c, i))
    && (r.Some? ==>
          && i < r.value.0 <= |c|
          && (if Escapes(c, i) && i + 1 == |c| then r.value == (i + 1, s) && ReadTo(c) == i else Splits(c, r.value.0, r.value.1))
          && forall j | i <= j < r.value.0 :: !HereAt(c, j))
  }

  lemma FlushReads(c: string, i: nat, s: Split)
    requires i <= |c| && Splits(c, i, s)
    ensures FlushWord(s) == Split(Ended(c, i), SegmentAt(c, i), "", false, false, s.quote)
    ensures FlushSegment(s) == Split(SegmentsTo(c, i), [], "", false, false, s.quote)
  {
    hide ModeAt, LineOf, WordStart, WordsOf, Ended, Mark;
    assert s.started || (Own(Splitting, c, i, i) == "" && !AnyQuote(c, i, i));
    hide Own, AnyQuote;
    MarkNoLine(s.text, s.quoted, LineOf(c, i));
  }

  lemma MarkNoLine(text: string, quoted: bool, line: nat)
    ensures Mark(Token(text, quoted, 0)) == Mark(Token(text, quoted, line))
  {
  }

  lemma SplitReads(c: string, i: nat, s: Split)
    requires i < |c| && Splits(c, i, s)
    ensures SplitsOn(c, i, s, SplitStep(c, i, s))
  {
    hide SplitsOn, SplitStep;
    if Escapes(c, i) {
      SplitEscapes(c, i, s);
    } else if s.quote.Some? {
      SplitQuoted(c, i, s);
    } else if Ends(c, i) {
      SplitEnds(c, i, s);
    } else if c[i] in {' ', '\t', '\r', '<', '>'} {
      SplitBreaks(c, i, s);
    } else {
      SplitPlain(c, i, s);
    }
  }

  lemma SplitEscapes(c: string, i: nat, s: Split)
    requires i < |c| && Splits(c, i, s) && Escapes(c, i)
    ensures SplitsOn(c, i, s, SplitStep(c, i, s))
  {
    hide ModeAt, AnyQuote, Own, LineOf, WordStart, WordsOf, Ended, SegmentAt, SegmentsTo, FlushWord, FlushSegment, PastSeparators;
    Advances(Splitting, c, i);
    SplitAdvances(c, i);
    if i + 1 < |c| {
      Advances(Splitting, c, i + 1);
      SplitAdvances(c, i + 1);
    }
  }

  lemma SplitQuoted(c: string, i: nat, s: Split)
    requires i < |c| && Splits(c, i, s) && !Escapes(c, i) && s.quote.Some?
    ensures SplitsOn(c, i, s, SplitStep(c, i, s))
  {
    hide ModeAt, AnyQuote, Own, LineOf, WordStart, WordsOf, Ended, SegmentAt, SegmentsTo, FlushWord, FlushSegment, PastSeparators;
    Advances(Splitting, c, i);
    SplitAdvances(c, i);
  }

  lemma SplitPlain(c: string, i: nat, s: Split)
    requires i < |c| && Splits(c, i, s) && !Escapes(c, i) && s.quote.None? && !Ends(c, i) && c[i] !in {' ', '\t', '\r', '<', '>'}
    ensures SplitsOn(c, i, s, SplitStep(c, i, s))
  {
    hide ModeAt, AnyQuote, Own, LineOf, WordStart, WordsOf, Ended, SegmentAt, SegmentsTo, FlushWord, FlushSegment, PastSeparators;
    Advances(Splitting, c, i);
    SplitAdvances(c, i);
  }

  lemma SplitBreaks(c: string, i: nat, s: Split)
    requires i < |c| && Splits(c, i, s) && s.quote.None? && c[i] in {' ', '\t', '\r', '<', '>'}
    ensures SplitsOn(c, i, s, SplitStep(c, i, s))
  {
    hide ModeAt, AnyQuote, Own, LineOf, WordStart, WordsOf, Ended, SegmentAt, SegmentsTo, FlushWord, FlushSegment, PastSeparators;
    Advances(Splitting, c, i);
    SplitAdvances(c, i);
    FlushReads(c, i, s);
  }

  lemma SplitEnds(c: string, i: nat, s: Split)
    requires i < |c| && Splits(c, i, s) && s.quote.None? && Ends(c, i)
    ensures SplitsOn(c, i, s, SplitStep(c, i, s))
  {
    hide ModeAt, AnyQuote, Own, LineOf, WordStart, WordsOf, Ended, SegmentAt, SegmentsTo, FlushWord, FlushSegment, PastSeparators;
    Advances(Splitting, c, i);
    SplitAdvances(c, i);
    FlushReads(c, i, s);
    SkipReads(c, i + 1, FlushSegment(s));
  }

  /** A run of separators ends nothing more. */
  lemma {:induction false} SkipReads(c: string, i: nat, s: Split)
    requires i <= |c| && Splits(c, i, s) && s.words == [] && !s.started && s.quote.None?
    ensures Splits(c, PastSeparators(c, i), s)
    ensures forall j | i <= j < PastSeparators(c, i) :: !HereAt(c, j)
    decreases |c| - i
  {
    if i < |c| && c[i] in {';', '|', '&'} {
      Advances(Splitting, c, i);
      SplitAdvances(c, i);
      FlushReads(c, i, s);
      assert Splits(c, i + 1, s) by {
        hide ModeAt, AnyQuote, Own, LineOf, WordStart, WordsOf, Ended, SegmentAt, SegmentsTo;
      }
      SkipReads(c, i + 1, s);
    }
  }

  lemma {:induction false} SplitReadsAll(c: string, i: nat, s: Split)
    requires i <= |c| && Splits(c, i, s)
    ensures SplitAs(c, i, SplitFrom(c, i, s))
    decreases |c| - i
  {
    hide SplitStep, Splits, SplitAs, HereAt, FlushSegment;
    if i == |c| {
      SplitEnd(c, s);
    } else {
      SplitReads(c, i, s);
      match SplitStep(c, i, s)
      case None => SplitStops(c, i, s);
      case Some((next, after)) =>
        if Escapes(c, i) && i + 1 == |c| {
          SplitDrops(c, i, s);
        } else {
          SplitReadsAll(c, next, after);
          SplitSooner(c, i, next, SplitFrom(c, next, after));
        }
    }
  }

  lemma SplitEnd(c: string, s: Split)
    requires Splits(c, |c|, s)
    ensures SplitAs(c, |c|, (FlushSegment(s).segments, true))
  {
    hide SegmentsTo, FlushSegment, WordsOf, Ended, WordAt, ModeAt;
    FlushReads(c, |c|, s);
  }

  lemma SplitStops(c: string, i: nat, s: Split)
    requires i < |c| && Splits(c, i, s) && HereAt(c, i)
    ensures SplitAs(c, i, (s.segments, false))
  {
    hide Ended, WordsOf, WordAt, HereAt;
  }

  lemma SplitDrops(c: string, i: nat, s: Split)
    requires i + 1 == |c| && Splits(c, i, s) && ReadTo(c) == i
    ensures SplitAs(c, i, (FlushSegment(s).segments, true))
  {
    hide SegmentsTo, FlushSegment, WordsOf, Ended, WordAt, ModeAt, ReadTo;
    FlushReads(c, i, s);
  }

  lemma SplitSooner(c: string, i: nat, next: nat, r: (seq<seq<string>>, bool))
    requires i <= next <= |c| && SplitAs(c, next, r) && forall j | i <= j < next :: !HereAt(c, j)
    ensures SplitAs(c, i, r)
  {
    hide HereAt, SegmentsTo, Ended;
  }

  /** The splitting lexer finds exactly the runs of bytes between the ends of segments that have
      any words, and in each exactly the runs between separators, marked; at the first
      here-document it stops with the segments that ended before it. */
  lemma SplitExactly(c: string)
    ensures SplitAs(c, 0, SplitFrom(c, 0, UNSPLIT))
    ensures SplitFrom(c, 0, UNSPLIT).1 <==> forall op :: !HereAt(c, op)
  {
    assert Splits(c, 0, UNSPLIT);
    hide SplitFrom, Splits, HereAt, SegmentsTo, Ended;
    SplitReadsAll(c, 0, UNSPLIT);
  }
}
