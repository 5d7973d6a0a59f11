/** The two shell lexers of the drafting table's guard: the strict one that accepts a simple
    command, and the one that splits any command into segments for analysis.

    A command is a sequence of bytes; a byte is represented by the character of that code. */
module Lexers {

  datatype Option<+T> = None | Some(value: T)

  const MAX_COMMAND: nat := 0x10_0000

  const QUOTED_CONTROL: string := "\U{0000}quoted-control:"

  predicate IsControlWord(word: string) {
    word in {"do", "then", "else", "elif", "if", "for", "while", "until", "case", "select", "!"}
  }

  /** Nothing but Unicode white space, in UTF-8: what `TrimSpace` reduces to nothing. */
  predicate AllSpace(s: string) {
    || s == ""
    || (s[0] in {'\t', '\n', '\U{000B}', '\U{000C}', '\r', ' '} && AllSpace(s[1..]))
    || (|s| >= 2 && s[0] == '\U{00C2}' && s[1] in {'\U{0085}', '\U{00A0}'} && AllSpace(s[2..]))
    || (|s| >= 3 && IsWideSpace(s[0], s[1], s[2]) && AllSpace(s[3..]))
  }

  /** The white-space characters of three bytes. */
  predicate IsWideSpace(a: char, b: char, c: char) {
    || (a == '\U{00E1}' && b == '\U{009A}' && c == '\U{0080}')
    || (a == '\U{00E2}' && b == '\U{0080}' && ('\U{0080}' <= c <= '\U{008A}' || c in {'\U{00A8}', '\U{00A9}', '\U{00AF}'}))
    || (a == '\U{00E2}' && b == '\U{0081}' && c == '\U{009F}')
    || (a == '\U{00E3}' && b == '\U{0080}' && c == '\U{0080}')
  }

  function IndexOf(s: string, c: char): (i: nat)
    ensures i <= |s| && (i < |s| ==> s[i] == c) && forall k | 0 <= k < i :: s[k] != c
  {
    if s == "" || s[0] == c then 0 else 1 + IndexOf(s[1..], c)
  }

  predicate IsNameChar(c: char) {
    'A' <= c <= 'Z' || 'a' <= c <= 'z' || c == '_' || '0' <= c <= '9'
  }

  /** An environment assignment, or an exported shell function. */
  predicate IsAssignment(word: string) {
    var i := IndexOf(word, '=');
    && i < |word|
    && var name := word[..i];
       || (name != "" && !('0' <= name[0] <= '9') && forall k | 0 <= k < |name| :: IsNameChar(name[k]))
       || (|name| >= 12 && "BASH_FUNC_" <= name && name[|name| - 2..] == "%%")
  }

  // ----- the words of a simple command -----

  /** A word, whether any part of it was quoted or escaped, and the line it is on: the number
      of line breaks, outside quotes, before it. */
  datatype Token = Token(text: string, quoted: bool, line: nat)

  datatype Lexing = Lexing(tokens: seq<Token>, text: string, started: bool, quoted: bool, quote: Option<char>, line: nat)

  const START: Lexing := Lexing([], "", false, false, None, 0)

  function Flushed(st: Lexing): (r: Lexing) {
    if st.started then Lexing(st.tokens + [Token(st.text, st.quoted, st.line)], "", false, false, st.quote, st.line) else st
  }

  datatype Lexed =
    | Words(tokens: seq<Token>)
    | HereDocument(words: seq<Token>, operator: nat)
    | Rejected(reason: string)

  /** One byte, or an escaped pair, from position `i`. */
  datatype Move = Go(next: nat, st: Lexing) | Stop(lexed: Lexed)

  /** What the strict lexer does at position `i`. */
  function Step(c: string, i: nat, st: Lexing): (move: Move)
    requires i < |c|
    ensures move.Go? ==> i < move.next <= |c|
  {
    var b := c[i];
    if st.quote == Some('\'') then
      Go(i + 1, if b == '\'' then st.(quote := None) else st.(text := st.text + [b]))
    else if st.quote == Some('"') then
      if b == '"' then Go(i + 1, st.(quote := None))
      else if b == '$' || b == '`' then Stop(Rejected("expansion"))
      else if b == '\\' then
        if i + 1 >= |c| then Stop(Rejected("unfinished shell escape"))
        else if c[i + 1] == '\n' then Stop(Rejected("continued shell command"))
        else Go(i + 2, st.(text := st.text + [c[i + 1]]))
      else Go(i + 1, st.(text := st.text + [b]))
    else if b == '\'' || b == '"' then Go(i + 1, st.(started := true, quoted := true, quote := Some(b)))
    else if b == '\\' then
      if i + 1 >= |c| then Stop(Rejected("unfinished shell escape"))
      else if c[i + 1] == '\n' then Stop(Rejected("continued shell command"))
      else Go(i + 2, st.(started := true, quoted := true, text := st.text + [c[i + 1]]))
    else if b == '$' || b == '`' then Stop(Rejected("expansion"))
    else if b in {'*', '?', '[', '{', '}'} then Stop(Rejected("pathname expansion"))
    else if b == '#' then Stop(Rejected("comment"))
    else if b in {';', '|', '&', '(', ')'} then Stop(Rejected("compound command"))
    else if b == '<' then
      if i + 1 < |c| && c[i + 1] == '<' then Stop(HereDocument(Flushed(st).tokens, i))
      else Stop(Rejected("input redirection"))
    else if b == '>' then Stop(Rejected("output redirection"))
    else if b == '\n' then
      if !AllSpace(c[i + 1..]) then Stop(Rejected("compound command")) else Go(i + 1, Flushed(st).(line := st.line + 1))
    else if b in {' ', '\t', '\r'} then Go(i + 1, Flushed(st))
    else if st.text == "" && b == '~' then Stop(Rejected("tilde expansion"))
    else Go(i + 1, st.(started := true, text := st.text + [b]))
  }

  function Finish(st: Lexing): (lexed: Lexed) {
    if st.quote.Some? then Rejected("unclosed shell quote")
    else
      var tokens := Flushed(st).tokens;
      if tokens == [] then Rejected("empty")
      else if IsAssignment(tokens[0].text) then Rejected("environment assignment")
      else Words(tokens)
  }

  /** The reference: everything from position `i` on. */
  function Lex(c: string, i: nat, st: Lexing): (lexed: Lexed)
    requires i <= |c|
    decreases |c| - i
  {
    if i == |c| then Finish(st)
    else
      match Step(c, i, st)
      case Stop(lexed) => lexed
      case Go(next, after) => Lex(c, next, after)
  }

  function Texts(tokens: seq<Token>): (words: seq<string>)
    ensures |words| == |tokens| && forall k | 0 <= k < |tokens| :: words[k] == tokens[k].text
  {
    seq(|tokens|, k requires 0 <= k < |tokens| => tokens[k].text)
  }

  datatype Outcome = Accepted | AtHereDocument(operator: nat) | Refused(reason: string)

  predicate Reports(words: seq<string>, outcome: Outcome, lexed: Lexed) {
    match lexed
    case Words(tokens) => outcome == Accepted && words == Texts(tokens)
    case HereDocument(tokens, operator) => outcome == AtHereDocument(operator) && words == Texts(tokens)
    case Rejected(reason) => outcome == Refused(reason)
  }

  lemma OneStep(c: string, i: nat, st: Lexing)
    requires i < |c|
    ensures Lex(c, i, st) == match Step(c, i, st) case Stop(lexed) => lexed case Go(next, after) => Lex(c, next, after)
  {
  }

  lemma LastStep(c: string, st: Lexing)
    ensures Lex(c, |c|, st) == Finish(st)
  {
  }

  /** The strict lexer. */
  method ParseSimple(c: string) returns (words: seq<string>, outcome: Outcome)
    ensures |c| > MAX_COMMAND ==> outcome.Refused?
    ensures |c| <= MAX_COMMAND ==> Reports(words, outcome, Lex(c, 0, START))
  {
    hide IsAssignment, AllSpace, Lex;
    words := [];
    if |c| > MAX_COMMAND {
      return [], Refused("command exceeds the 1 MiB limit");
    }
    var i: nat, text: string, started, quote: Option<char> := 0, "", false, None;
    ghost var st := START;
    while i < |c|
      invariant i <= |c|
      invariant words == Texts(st.tokens) && text == st.text && started == st.started && quote == st.quote
      invariant Lex(c, i, st) == Lex(c, 0, START)
      decreases |c| - i
    {
      var b := c[i];
      ghost var move := Step(c, i, st);
      OneStep(c, i, st);
      if quote == Some('\'') {
        if b == '\'' {
          quote := None;
        } else {
          text := text + [b];
        }
      } else if quote == Some('"') {
        if b == '"' {
          quote := None;
        } else if b == '$' || b == '`' {
          return [], Refused("expansion");
        } else if b == '\\' {
          if i + 1 >= |c| {
            return [], Refused("unfinished shell escape");
          }
          i := i + 1;
          if c[i] == '\n' {
            return [], Refused("continued shell command");
          }
          text := text + [c[i]];
        } else {
          text := text + [b];
        }
      } else if b == '\'' || b == '"' {
        started, quote := true, Some(b);
      } else if b == '\\' {
        if i + 1 >= |c| {
          return [], Refused("unfinished shell escape");
        }
        i := i + 1;
        if c[i] == '\n' {
          return [], Refused("continued shell command");
        }
        started, text := true, text + [c[i]];
      } else if b == '$' || b == '`' {
        return [], Refused("expansion");
      } else if b in {'*', '?', '[', '{', '}'} {
        return [], Refused("pathname expansion");
      } else if b == '#' {
        return [], Refused("comment");
      } else if b in {';', '|', '&', '(', ')'} {
        return [], Refused("compound command");
      } else if b == '<' {
        if i + 1 < |c| && c[i + 1] == '<' {
          if started {
            words := words + [text];
          }
          return words, AtHereDocument(i);
        }
        return [], Refused("input redirection");
      } else if b == '>' {
        return [], Refused("output redirection");
      } else if b == '\n' || b == ' ' || b == '\t' || b == '\r' {
        if b == '\n' && !AllSpace(c[i + 1..]) {
          return [], Refused("compound command");
        }
        if started {
          words, text, started := words + [text], "", false;
        }
      } else {
        started := true;
        if text == "" && b == '~' {
          return [], Refused("tilde expansion");
        }
        text := text + [b];
      }
      i := i + 1;
      st := move.st;
    }
    LastStep(c, st);
    if quote.Some? {
      return [], Refused("unclosed shell quote");
    }
    if started {
      words := words + [text];
    }
    if words == [] {
      return [], Refused("empty");
    }
    if IsAssignment(words[0]) {
      return [], Refused("environment assignment");
    }
    outcome := Accepted;
  }

  // ----- the segments of any command -----

  /** A quoted control word is marked, so that it is not taken for the control word. */
  function Mark(t: Token): (word: string) {
    if t.quoted && IsControlWord(t.text) then QUOTED_CONTROL + t.text else t.text
  }

  function Marks(tokens: seq<Token>): (words: seq<string>)
    ensures |words| == |tokens| && forall k | 0 <= k < |tokens| :: words[k] == Mark(tokens[k])
  {
    seq(|tokens|, k requires 0 <= k < |tokens| => Mark(tokens[k]))
  }

  /** The marked words of each line that has any. */
  function Lines(tokens: seq<Token>): (lines: seq<seq<string>>)
    ensures tokens != [] ==> lines != []
  {
    if tokens == [] then []
    else
      var n := |tokens| - 1;
      var earlier := Lines(tokens[..n]);
      if n > 0 && tokens[n - 1].line == tokens[n].line
      then earlier[..|earlier| - 1] + [earlier[|earlier| - 1] + [Mark(tokens[n])]]
      else earlier + [[Mark(tokens[n])]]
  }

  /** Line by line they are all the words, in order. */
  lemma {:induction false} LinesAreAll(tokens: seq<Token>)
    ensures Flatten(Lines(tokens)) == Marks(tokens)
  {
    hide Mark, Flatten;
    if tokens != [] {
      var n := |tokens| - 1;
      var earlier, mark := Lines(tokens[..n]), Mark(tokens[n]);
      LinesAreAll(tokens[..n]);
      MarksAppend(tokens);
      hide Marks;
      if n > 0 && tokens[n - 1].line == tokens[n].line {
        var m := |earlier| - 1;
        assert earlier == earlier[..m] + [earlier[m]];
        LengthenLast(earlier[..m], earlier[m], mark);
      } else {
        FlattenAppend(earlier, [mark]);
      }
    } else {
      FlattenNothing();
    }
  }

  lemma FlattenNothing()
    ensures Flatten([]) == []
  {
  }

  lemma MarksAppend(tokens: seq<Token>)
    requires tokens != []
    ensures Marks(tokens) == Marks(tokens[..|tokens| - 1]) + [Mark(tokens[|tokens| - 1])]
  {
    hide Mark;
  }

  lemma LengthenLast(front: seq<seq<string>>, last: seq<string>, word: string)
    ensures Flatten(front + [last + [word]]) == Flatten(front + [last]) + [word]
  {
    hide Flatten;
    FlattenAppend(front, last + [word]);
    FlattenAppend(front, last);
    Associates(Flatten(front), last, [word]);
  }

  lemma Associates(a: seq<string>, b: seq<string>, c: seq<string>)
    ensures a + (b + c) == a + b + c
  {
  }

  /** There is one line exactly if all the words are on the same line. */
  lemma {:induction false} OneLine(tokens: seq<Token>)
    requires tokens != []
    ensures |Lines(tokens)| == 1 <==> forall k | 0 <= k < |tokens| :: tokens[k].line == tokens[0].line
  {
    hide Mark;
    var n := |tokens| - 1;
    if n > 0 {
      OneLine(tokens[..n]);
      assert tokens[..n][n - 1] == tokens[n - 1] && tokens[..n][0] == tokens[0];
    }
  }

  function Flatten(segments: seq<seq<string>>): (words: seq<string>) {
    if segments == [] then [] else Flatten(segments[..|segments| - 1]) + segments[|segments| - 1]
  }

  lemma FlattenAppend(segments: seq<seq<string>>, words: seq<string>)
    ensures Flatten(segments + [words]) == Flatten(segments) + words
  {
    assert (segments + [words])[..|segments|] == segments;
  }

  /** The state of the splitting lexer. */
  datatype Split = Split(segments: seq<seq<string>>, words: seq<string>, text: string, started: bool, quoted: bool, quote: Option<char>)

  function FlushWord(s: Split): (r: Split) {
    if s.started then s.(words := s.words + [Mark(Token(s.text, s.quoted, 0))], text := "", started := false, quoted := false) else s
  }

  function FlushSegment(s: Split): (r: Split) {
    var f := FlushWord(s);
    if f.words != [] then f.(segments := f.segments + [f.words], words := []) else f
  }

  /** The segments so far, the open one included. */
  function SoFar(s: Split): (segments: seq<seq<string>>) {
    if s.words == [] then s.segments else s.segments + [s.words]
  }

  /** Both lexers have read the same words so far, on the same lines. */
  ghost predicate InStep(s: Split, st: Lexing) {
    && SoFar(s) == Lines(st.tokens)
    && (s.words != [] <==> st.tokens != [] && st.tokens[|st.tokens| - 1].line == st.line)
    && (st.tokens != [] ==> st.tokens[|st.tokens| - 1].line <= st.line)
    && s.text == st.text && s.started == st.started && s.quoted == st.quoted && s.quote == st.quote
    && (st.quoted ==> st.started)
    && (st.started || (st.text == "" && st.quote.None?))
    && (st.quote.Some? ==> st.quote.value == '\'' || st.quote.value == '"')
  }

  lemma WordInStep(s: Split, st: Lexing)
    requires InStep(s, st) && st.quote.None?
    ensures InStep(FlushWord(s), Flushed(st)) && FlushWord(s).segments == s.segments && !Flushed(st).started
  {
    hide IsControlWord;
    if st.started {
      var tokens := st.tokens + [Token(st.text, st.quoted, st.line)];
      assert tokens[..|st.tokens|] == st.tokens;
      var mark := Mark(tokens[|st.tokens|]);
      assert FlushWord(s).words == s.words + [mark];
      if s.words != [] {
        assert SoFar(s)[..|s.segments|] == s.segments && SoFar(s)[|s.segments|] == s.words;
        assert Lines(tokens) == s.segments + [s.words + [mark]];
      } else {
        assert s.words + [mark] == [mark];
        assert Lines(tokens) == s.segments + [[mark]];
      }
    }
  }

  lemma SegmentInStep(s: Split, st: Lexing)
    requires InStep(s, st) && st.quote.None?
    ensures InStep(FlushSegment(s), Flushed(st).(line := st.line + 1))
    ensures FlushSegment(s).words == [] && FlushSegment(s).segments == Lines(Flushed(st).tokens)
  {
    WordInStep(s, st);
    hide Mark, Lines;
  }

  /** What the splitting lexer does at position `i`; nothing is said of a here-document. */
  function SplitStep(c: string, i: nat, s: Split): (r: Option<(nat, Split)>)
    requires i < |c|
    ensures r.Some? ==> i < r.value.0 <= |c|
  {
    var b := c[i];
    if s.quote == Some('\'') then
      Some((i + 1, if b == '\'' then s.(quote := None) else s.(text := s.text + [b])))
    else if s.quote == Some('"') then
      if b == '"' then Some((i + 1, s.(quote := None)))
      else if b == '\\' then if i + 1 < |c| then Some((i + 2, s.(text := s.text + [c[i + 1]]))) else Some((i + 1, s))
      else Some((i + 1, s.(text := s.text + [b])))
    else if b == '\'' || b == '"' then Some((i + 1, s.(quote := Some(b), started := true, quoted := true)))
    else if b == '\\' then
      if i + 1 < |c| then Some((i + 2, s.(text := s.text + [c[i + 1]], started := true, quoted := true))) else Some((i + 1, s))
    else if b in {' ', '\t', '\r'} then Some((i + 1, FlushWord(s)))
    else if b in {'\n', ';', '|', '&', '(', ')'} then Some((PastSeparators(c, i + 1), FlushSegment(s)))
    else if b == '<' then if i + 1 < |c| && c[i + 1] == '<' then None else Some((i + 1, FlushWord(s)))
    else if b == '>' then Some((i + 1, FlushWord(s)))
    else Some((i + 1, s.(text := s.text + [b], started := true)))
  }

  const UNSPLIT: Split := Split([], [], "", false, false, None)

  /** The segments from position `i` on, and whether they are all there are. */
  function SplitFrom(c: string, i: nat, s: Split): (r: (seq<seq<string>>, bool))
    requires i <= |c|
    decreases |c| - i
  {
    if i == |c| then (FlushSegment(s).segments, true)
    else
      match SplitStep(c, i, s)
      case None => (s.segments, false)
      case Some((next, after)) => SplitFrom(c, next, after)
  }

  function PastSeparators(c: string, i: nat): (n: nat)
    requires i <= |c|
    ensures i <= n <= |c|
    decreases |c| - i
  {
    if i < |c| && c[i] in {';', '|', '&'} then PastSeparators(c, i + 1) else i
  }

  /** Where the strict lexer goes on, the splitting one takes the same step. */
  lemma StepsAgree(c: string, i: nat, s: Split, st: Lexing)
    requires i < |c| && InStep(s, st) && Step(c, i, st).Go?
    ensures var move, split := Step(c, i, st), SplitStep(c, i, s);
            split.Some? && split.value.0 == move.next && InStep(split.value.1, move.st)
  {
    hide Mark, Lines;
    if st.quote.Some? {
      QuotedAgree(c, i, s, st);
    } else if c[i] in {'\n', ' ', '\t', '\r'} {
      BreaksAgree(c, i, s, st);
    } else {
      hide FlushWord, FlushSegment, Flushed, PastSeparators, AllSpace;
    }
  }

  lemma QuotedAgree(c: string, i: nat, s: Split, st: Lexing)
    requires i < |c| && InStep(s, st) && Step(c, i, st).Go? && st.quote.Some?
    ensures var move, split := Step(c, i, st), SplitStep(c, i, s);
            split.Some? && split.value.0 == move.next && InStep(split.value.1, move.st)
  {
    hide Mark, Lines, FlushWord, FlushSegment, Flushed, PastSeparators, AllSpace;
  }

  lemma BreaksAgree(c: string, i: nat, s: Split, st: Lexing)
    requires i < |c| && InStep(s, st) && Step(c, i, st).Go? && st.quote.None? && c[i] in {'\n', ' ', '\t', '\r'}
    ensures var move, split := Step(c, i, st), SplitStep(c, i, s);
            split.Some? && split.value.0 == move.next && InStep(split.value.1, move.st)
  {
    WordInStep(s, st);
    SegmentInStep(s, st);
    if c[i] == '\n' {
      NoSeparatorNext(c, i + 1);
    }
    hide FlushWord, FlushSegment, Flushed, PastSeparators, AllSpace, InStep;
  }

  lemma NoSeparatorNext(c: string, i: nat)
    requires i <= |c|
    ensures AllSpace(c[i..]) ==> PastSeparators(c, i) == i
  {
    assert i < |c| ==> c[i..][0] == c[i];
  }

  /** The splitting lexer. `complete` is false where a here-document starts: what becomes of
      it is not part of this model. */
  method Segments(c: string) returns (segments: seq<seq<string>>, complete: bool)
    ensures (segments, complete) == SplitFrom(c, 0, UNSPLIT)
    ensures var lexed := Lex(c, 0, START);
            lexed.Words? ==>
              && complete
              && segments == Lines(lexed.tokens)
              && Flatten(segments) == Marks(lexed.tokens)
              && (|segments| == 1 <==> forall k | 0 <= k < |lexed.tokens| :: lexed.tokens[k].line == lexed.tokens[0].line)
  {
    var s := UNSPLIT;
    var i: nat := 0;
    ghost var st, lexed := START, Lex(c, 0, START);
    assert InStep(s, st);
    hide Step, SplitStep, InStep, Finish, FlushSegment, Marks, Lines;
    while i < |c|
      invariant i <= |c|
      invariant lexed.Words? ==> Lex(c, i, st) == lexed && InStep(s, st)
      invariant SplitFrom(c, i, s) == SplitFrom(c, 0, UNSPLIT)
      decreases |c| - i
    {
      ghost var move := Step(c, i, st);
      if lexed.Words? {
        if move.Stop? {
          StopsWithoutWords(c, i, st);
        } else {
          StepsAgree(c, i, s, st);
          st := move.st;
        }
      }
      var next, after, stopped := SplitAt(c, i, s);
      if stopped {
        return s.segments, false;
      }
      i, s := next, after;
    }
    if lexed.Words? {
      AtTheEnd(s, st, lexed);
      LinesAreAll(lexed.tokens);
      LexedIsNotEmpty(c, 0, START);
      OneLine(lexed.tokens);
    }
    s := FlushSegmentNow(s);
    segments, complete := s.segments, true;
  }

  /** One byte, or an escaped pair, or a run of separators. */
  method SplitAt(c: string, i: nat, given: Split) returns (next: nat, s: Split, stopped: bool)
    requires i < |c|
    ensures SplitStep(c, i, given) == if stopped then None else Some((next, s))
    ensures next <= |c| && (!stopped ==> i < next)
  {
    hide PastSeparators, FlushSegment;
    next, s, stopped := i + 1, given, false;
    var b := c[i];
    if s.quote == Some('\'') {
      if b == '\'' {
        s := s.(quote := None);
      } else {
        s := s.(text := s.text + [b]);
      }
    } else if s.quote == Some('"') {
      if b == '"' {
        s := s.(quote := None);
      } else if b == '\\' {
        if i + 1 < |c| {
          next := i + 2;
          s := s.(text := s.text + [c[i + 1]]);
        }
      } else {
        s := s.(text := s.text + [b]);
      }
    } else if b == '\'' || b == '"' {
      s := s.(quote := Some(b), started := true, quoted := true);
    } else if b == '\\' {
      if i + 1 < |c| {
        next := i + 2;
        s := s.(text := s.text + [c[i + 1]], started := true, quoted := true);
      }
    } else if b == ' ' || b == '\t' || b == '\r' {
      s := FlushWordNow(s);
    } else if b in {'\n', ';', '|', '&', '(', ')'} {
      s := FlushSegmentNow(s);
      next := SkipSeparators(c, i + 1);
    } else if b == '<' {
      if i + 1 < |c| && c[i + 1] == '<' {
        stopped := true;
      } else {
        s := FlushWordNow(s);
      }
    } else if b == '>' {
      s := FlushWordNow(s);
    } else {
      s := s.(text := s.text + [b], started := true);
    }
  }

  method FlushWordNow(given: Split) returns (s: Split)
    ensures s == FlushWord(given)
  {
    s := given;
    if s.started {
      var value := s.text;
      if s.quoted && IsControlWord(value) {
        value := QUOTED_CONTROL + value;
      }
      s := s.(words := s.words + [value], text := "", started := false, quoted := false);
    }
  }

  method FlushSegmentNow(given: Split) returns (s: Split)
    ensures s == FlushSegment(given)
  {
    s := FlushWordNow(given);
    if s.words != [] {
      s := s.(segments := s.segments + [s.words], words := []);
    }
  }

  method SkipSeparators(c: string, from: nat) returns (i: nat)
    requires from <= |c|
    ensures i == PastSeparators(c, from)
  {
    i := from;
    while i < |c| && c[i] in {';', '|', '&'}
      invariant from <= i <= |c| && PastSeparators(c, i) == PastSeparators(c, from)
    {
      i := i + 1;
    }
  }

  /** What is left at the end of the command is the last segment. */
  lemma AtTheEnd(s: Split, st: Lexing, lexed: Lexed)
    requires InStep(s, st) && Finish(st) == lexed && lexed.Words?
    ensures FlushSegment(s).segments == Lines(lexed.tokens)
  {
    SegmentInStep(s, st);
  }

  // ----- agreement -----

  /** The same words, but for the mark on a quoted control word. */
  predicate SameUpToMark(words: seq<string>, flat: seq<string>) {
    && |words| == |flat|
    && forall k | 0 <= k < |words| ::
         flat[k] == words[k] || (IsControlWord(words[k]) && flat[k] == QUOTED_CONTROL + words[k])
  }

  /** On every command the strict lexer accepts, the two agree on what the words are; without
      a line break they are one segment. A line break does not by itself make a second one:
      only words after it do, and white space that is not a separator is a word. */
  method BothLexers(c: string) returns (words: seq<string>, segments: seq<seq<string>>, accepted: bool)
    ensures accepted ==> words != [] && SameUpToMark(words, Flatten(segments))
    ensures accepted && '\n' !in c ==> |segments| == 1 && SameUpToMark(words, segments[0])
  {
    hide Lex, SplitFrom, Lines, Marks, Flatten, IsControlWord;
    var outcome;
    words, outcome := ParseSimple(c);
    accepted := outcome == Accepted;
    var complete;
    segments, complete := Segments(c);
    if accepted {
      Agreement(c);
      if '\n' !in c {
        FirstLine(c, 0, START);
      }
      if |segments| == 1 {
        FlattenOne(segments);
      }
    }
  }

  lemma FlattenOne(segments: seq<seq<string>>)
    requires |segments| == 1
    ensures Flatten(segments) == segments[0]
  {
    assert Flatten(segments) == Flatten(segments[..0]) + segments[0];
  }

  lemma Agreement(c: string)
    requires Lex(c, 0, START).Words?
    ensures var tokens := Lex(c, 0, START).tokens;
            tokens != [] && SameUpToMark(Texts(tokens), Marks(tokens))
  {
    hide IsControlWord;
    LexedIsNotEmpty(c, 0, START);
  }

  lemma {:induction false} LexedIsNotEmpty(c: string, i: nat, st: Lexing)
    requires i <= |c|
    ensures Lex(c, i, st).Words? ==> Lex(c, i, st).tokens != []
    decreases |c| - i
  {
    hide Step;
    if i < |c| && Step(c, i, st).Go? {
      LexedIsNotEmpty(c, Step(c, i, st).next, Step(c, i, st).st);
    } else if i < |c| {
      StopsWithoutWords(c, i, st);
    }
  }

  lemma {:induction false} FirstLine(c: string, i: nat, st: Lexing)
    requires i <= |c| && '\n' !in c && st.line == 0 && forall k | 0 <= k < |st.tokens| :: st.tokens[k].line == 0
    ensures var lexed := Lex(c, i, st); lexed.Words? ==> forall k | 0 <= k < |lexed.tokens| :: lexed.tokens[k].line == 0
    decreases |c| - i
  {
    if i < |c| {
      if Step(c, i, st).Go? {
        StaysOnLine(c, i, st);
        hide Step;
        FirstLine(c, Step(c, i, st).next, Step(c, i, st).st);
      } else {
        StopsWithoutWords(c, i, st);
      }
    }
  }

  lemma StaysOnLine(c: string, i: nat, st: Lexing)
    requires i < |c| && '\n' !in c && st.line == 0 && (forall k | 0 <= k < |st.tokens| :: st.tokens[k].line == 0) && Step(c, i, st).Go?
    ensures var after := Step(c, i, st).st; after.line == 0 && forall k | 0 <= k < |after.tokens| :: after.tokens[k].line == 0
  {
    assert c[i] in c;
  }

  /** A line break, then white space the lexers take for a word: two segments. */
  lemma SecondSegment()
    ensures Lex("a\n\U{000C}", 0, START) == Words([Token("a", false, 0), Token("\U{000C}", false, 1)])
    ensures |Lines([Token("a", false, 0), Token("\U{000C}", false, 1)])| == 2
  {
    var c, tokens := "a\n\U{000C}", [Token("a", false, 0), Token("\U{000C}", false, 1)];
    var one, two := Lexing([], "a", true, false, None, 0), Lexing([tokens[0]], "", false, false, None, 1);
    var three := Lexing([tokens[0]], "\U{000C}", true, false, None, 1);
    FirstBytes(c, one, two, three);
    assert Finish(three) == Words(tokens) by {
      assert IndexOf("a", '=') == 1;
    }
    hide Step, Finish;
    assert Lex(c, 3, three) == Words(tokens);
    assert tokens[..1] == [tokens[0]];
  }

  lemma FirstBytes(c: string, one: Lexing, two: Lexing, three: Lexing)
    requires c == "a\n\U{000C}"
    requires one == Lexing([], "a", true, false, None, 0) && two == Lexing([Token("a", false, 0)], "", false, false, None, 1)
    requires three == Lexing([Token("a", false, 0)], "\U{000C}", true, false, None, 1)
    ensures Step(c, 0, START) == Go(1, one) && Step(c, 1, one) == Go(2, two) && Step(c, 2, two) == Go(3, three)
  {
    assert AllSpace(c[2..]) by {
      assert c[2..] == "\U{000C}";
    }
    hide AllSpace;
  }

  lemma StopsWithoutWords(c: string, i: nat, st: Lexing)
    requires i < |c| && Step(c, i, st).Stop?
    ensures !Step(c, i, st).lexed.Words?
  {
  }

  /** A marked word is never taken for the control word it quotes. */
  lemma MarkHides(word: string)
    ensures !IsControlWord(QUOTED_CONTROL + word)
  {
    assert (QUOTED_CONTROL + word)[0] == '\U{0000}';
  }
}
