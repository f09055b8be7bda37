/**
 Splitting a launch command into words: the character loop of `commandWords`, and the
 grammar of quotes and escapes it accepts.
 */
module LaunchCommand {
  import opened Common

  datatype TokenError = Unterminated

  /** White space and line terminators, as both `trim` and the `\s` class understand them. */
  predicate IsSpace(c: char) {
    c == '\t' || c == '\n' || c == '\U{0B}' || c == '\U{0C}' || c == '\r' || c == ' ' || c == '\U{A0}'
    || c == '\U{1680}' || '\U{2000}' <= c <= '\U{200A}' || c == '\U{2028}' || c == '\U{2029}'
    || c == '\U{202F}' || c == '\U{205F}' || c == '\U{3000}' || c == '\U{FEFF}'
  }

  function TrimLeft(s: string): string {
    if s != [] && IsSpace(s[0]) then TrimLeft(s[1..]) else s
  }

  function TrimRight(s: string): string {
    if s != [] && IsSpace(s[|s| - 1]) then TrimRight(s[..|s| - 1]) else s
  }

  function Trim(s: string): string {
    TrimRight(TrimLeft(s))
  }

  // ---------------------------------------------------------------- the character loop

  datatype Scan = Scan(words: seq<string>, current: string, quote: Option<char>, escaping: bool, tokenStarted: bool)

  const START: Scan := Scan([], "", None, false, false)

  predicate IsQuote(c: char) {
    c == '\'' || c == '"'
  }

  function Feed(s: Scan, c: char): Scan {
    if s.escaping then s.(current := s.current + [c], escaping := false, tokenStarted := true)
    else if c == '\\' then s.(escaping := true, tokenStarted := true)
    else if s.quote.Some? then
      if c == s.quote.value then s.(quote := None, tokenStarted := true)
      else s.(current := s.current + [c], tokenStarted := true)
    else if IsQuote(c) then s.(quote := Some(c), tokenStarted := true)
    else if IsSpace(c) then
      if s.tokenStarted then s.(words := s.words + [s.current], current := "", tokenStarted := false) else s
    else s.(current := s.current + [c], tokenStarted := true)
  }

  function FeedAll(s: Scan, text: string): Scan
    decreases |text|
  {
    if text == [] then s else FeedAll(Feed(s, text[0]), text[1..])
  }

  function NonEmpty(words: seq<string>): seq<string> {
    if words == [] then [] else (if words[0] == "" then [] else [words[0]]) + NonEmpty(words[1..])
  }

  function Finish(s: Scan): Result<seq<string>, TokenError> {
    if s.escaping || s.quote.Some? then Err(Unterminated)
    else Ok(NonEmpty(s.words + if s.tokenStarted then [s.current] else []))
  }

  method CommandWords(command: string) returns (r: Result<seq<string>, TokenError>)
    ensures r == Finish(FeedAll(START, Trim(command)))
  {
    var words: seq<string> := [];
    var current := "";
    var quote: Option<char> := None;
    var escaping := false;
    var tokenStarted := false;
    var text := Trim(command);
    for i := 0 to |text|
      invariant FeedAll(Scan(words, current, quote, escaping, tokenStarted), text[i..]) == FeedAll(START, text)
    {
      assert text[i..][0] == text[i] && text[i..][1..] == text[i + 1..];
      var character := text[i];
      if escaping {
        current := current + [character];
        escaping := false;
        tokenStarted := true;
        continue;
      }
      if character == '\\' {
        escaping := true;
        tokenStarted := true;
        continue;
      }
      if quote.Some? {
        if character == quote.value {
          quote := None;
        } else {
          current := current + [character];
        }
        tokenStarted := true;
        continue;
      }
      if IsQuote(character) {
        quote := Some(character);
        tokenStarted := true;
        continue;
      }
      if IsSpace(character) {
        if tokenStarted {
          words := words + [current];
          current := "";
          tokenStarted := false;
        }
        continue;
      }
      current := current + [character];
      tokenStarted := true;
    }
    if escaping || quote.Some? {
      return Err(Unterminated);
    }
    if tokenStarted {
      words := words + [current];
    }
    assert words + [] == words;
    return Ok(NonEmpty(words));
  }

  // ---------------------------------------------------------------- the grammar

  datatype QuotedChar = Raw(c: char) | QuotedEscape(c: char)

  datatype Piece = Blank(c: char) | Bare(c: char) | Escape(c: char) | Quoted(quote: char, body: seq<QuotedChar>)

  predicate BodyOk(quote: char, body: seq<QuotedChar>) {
    forall i :: 0 <= i < |body| && body[i].Raw? ==> body[i].c != quote && body[i].c != '\\'
  }

  predicate PieceOk(p: Piece) {
    match p
    case Blank(c) => IsSpace(c)
    case Bare(c) => !IsSpace(c) && !IsQuote(c) && c != '\\'
    case Escape(_) => true
    case Quoted(q, body) => IsQuote(q) && BodyOk(q, body)
  }

  predicate PiecesOk(ps: seq<Piece>) {
    forall i :: 0 <= i < |ps| ==> PieceOk(ps[i])
  }

  function BodyText(body: seq<QuotedChar>): string {
    if body == [] then ""
    else (if body[0].Raw? then [body[0].c] else ['\\', body[0].c]) + BodyText(body[1..])
  }

  function BodyChars(body: seq<QuotedChar>): string {
    if body == [] then "" else [body[0].c] + BodyChars(body[1..])
  }

  function PieceText(p: Piece): string {
    match p
    case Blank(c) => [c]
    case Bare(c) => [c]
    case Escape(c) => ['\\', c]
    case Quoted(q, body) => [q] + BodyText(body) + [q]
  }

  function Text(ps: seq<Piece>): string {
    if ps == [] then "" else PieceText(ps[0]) + Text(ps[1..])
  }

  /** What a piece adds to the word under construction; a blank ends it instead. */
  function PieceChars(p: Piece): string {
    match p
    case Blank(_) => ""
    case Bare(c) => [c]
    case Escape(c) => [c]
    case Quoted(_, body) => BodyChars(body)
  }

  function Word(w: string): seq<string> {
    if w == "" then [] else [w]
  }

  /** The words a piece list stands for, `current` being what precedes it without a blank. */
  function Words(current: string, ps: seq<Piece>): seq<string>
    decreases |ps|
  {
    if ps == [] then Word(current)
    else if ps[0].Blank? then Word(current) + Words("", ps[1..])
    else Words(current + PieceChars(ps[0]), ps[1..])
  }

  // ---------------------------------------------------------------- the loop implements the grammar

  lemma {:induction false} FeedConcat(s: Scan, a: string, b: string)
    ensures FeedAll(s, a + b) == FeedAll(FeedAll(s, a), b)
    decreases |a|
  {
    if a == [] {
      assert a + b == b;
    } else {
      assert (a + b)[1..] == a[1..] + b;
      FeedConcat(Feed(s, a[0]), a[1..], b);
    }
  }

  lemma {:induction false} NonEmptyConcat(a: seq<string>, b: seq<string>)
    ensures NonEmpty(a + b) == NonEmpty(a) + NonEmpty(b)
    decreases |a|
  {
    if a == [] {
      assert a + b == b;
    } else {
      assert (a + b)[1..] == a[1..] + b;
      NonEmptyConcat(a[1..], b);
    }
  }

  lemma FeedTwo(s: Scan, a: char, b: char)
    ensures FeedAll(s, [a, b]) == Feed(Feed(s, a), b)
  {
    assert [a, b][1..] == [b];
    assert FeedAll(Feed(s, a), [b]) == Feed(Feed(s, a), b);
  }

  lemma FeedQuotedChar(s: Scan, q: char, x: QuotedChar)
    requires s.quote == Some(q) && !s.escaping && s.tokenStarted && BodyOk(q, [x])
    ensures FeedAll(s, if x.Raw? then [x.c] else ['\\', x.c]) == s.(current := s.current + [x.c])
  {
    assert [x][0] == x;
    if x.QuotedEscape? {
      FeedTwo(s, '\\', x.c);
    } else {
      assert FeedAll(s, [x.c]) == Feed(s, x.c);
    }
  }

  lemma Regroup<T>(a: seq<T>, b: seq<T>, c: seq<T>)
    ensures a + b + c == a + (b + c)
  {
  }

  lemma {:induction false} FeedBody(s: Scan, q: char, body: seq<QuotedChar>)
    requires s.quote == Some(q) && !s.escaping && s.tokenStarted && BodyOk(q, body)
    ensures FeedAll(s, BodyText(body)) == s.(current := s.current + BodyChars(body))
    decreases |body|
  {
    hide Feed;
    if body == [] {
      assert s.current + "" == s.current;
    } else {
      hide FeedAll;
      FeedQuotedChar(s, q, body[0]);
      FeedConcat(s, if body[0].Raw? then [body[0].c] else ['\\', body[0].c], BodyText(body[1..]));
      FeedBody(s.(current := s.current + [body[0].c]), q, body[1..]);
      Regroup(s.current, [body[0].c], BodyChars(body[1..]));
    }
  }

  predicate Outside(s: Scan) {
    s.quote.None? && !s.escaping && (!s.tokenStarted ==> s.current == "")
  }

  lemma FeedPiece(s: Scan, p: Piece)
    requires Outside(s) && PieceOk(p)
    ensures var t := FeedAll(s, PieceText(p));
            && Outside(t)
            && if p.Blank? then t.current == "" && NonEmpty(t.words) == NonEmpty(s.words) + Word(s.current)
               else t.words == s.words && t.current == s.current + PieceChars(p)
  {
    match p
    case Blank(c) =>
      assert FeedAll(s, [c]) == Feed(s, c);
      NonEmptyConcat(s.words, [s.current]);
    case Bare(c) =>
      assert FeedAll(s, [c]) == Feed(s, c);
    case Escape(c) =>
      FeedTwo(s, '\\', c);
    case Quoted(q, body) =>
      var inside := Feed(s, q);
      assert PieceText(p) == [q] + (BodyText(body) + [q]);
      FeedConcat(s, [q], BodyText(body) + [q]);
      assert FeedAll(s, [q]) == inside;
      FeedConcat(inside, BodyText(body), [q]);
      FeedBody(inside, q, body);
      assert FeedAll(inside.(current := s.current + BodyChars(body)), [q])
          == Feed(inside.(current := s.current + BodyChars(body)), q);
  }

  lemma {:induction false} FeedPieces(s: Scan, ps: seq<Piece>)
    requires Outside(s) && PiecesOk(ps)
    ensures Outside(FeedAll(s, Text(ps)))
    ensures Finish(FeedAll(s, Text(ps))) == Ok(NonEmpty(s.words) + Words(s.current, ps))
    decreases |ps|
  {
    hide Feed;
    hide PieceText;
    if ps == [] {
      FinishOutside(s);
    } else {
      FeedPiece(s, ps[0]);
      FeedConcat(s, PieceText(ps[0]), Text(ps[1..]));
      var t := FeedAll(s, PieceText(ps[0]));
      FeedPieces(t, ps[1..]);
      WordsOfFirst(s, t, ps);
      hide FeedAll;
      hide Finish;
      hide Words;
    }
  }

  lemma FinishOutside(s: Scan)
    requires Outside(s)
    ensures Finish(s) == Ok(NonEmpty(s.words) + Word(s.current))
  {
    NonEmptyConcat(s.words, if s.tokenStarted then [s.current] else []);
    assert [s.current][1..] == [];
    assert NonEmpty([s.current]) == Word(s.current);
  }

  lemma WordsOfFirst(s: Scan, t: Scan, ps: seq<Piece>)
    requires ps != []
    requires if ps[0].Blank? then t.current == "" && NonEmpty(t.words) == NonEmpty(s.words) + Word(s.current)
             else t.words == s.words && t.current == s.current + PieceChars(ps[0])
    ensures NonEmpty(t.words) + Words(t.current, ps[1..]) == NonEmpty(s.words) + Words(s.current, ps)
  {
  }

  lemma BodyCons(q: char, x: QuotedChar, tail: seq<QuotedChar>, rest: string)
    requires BodyOk(q, [x]) && BodyOk(q, tail)
    ensures BodyOk(q, [x] + tail)
    ensures BodyText([x] + tail) + [q] + rest
            == (if x.Raw? then [x.c] else ['\\', x.c]) + (BodyText(tail) + [q] + rest)
  {
    assert ([x] + tail)[1..] == tail;
  }

  /** From inside a quote: either the text ends inside it, or a body and the closing quote come first. */
  lemma {:induction false} SplitQuoted(s: Scan, q: char, text: string) returns (body: seq<QuotedChar>, rest: string)
    requires s.quote == Some(q) && !s.escaping && s.tokenStarted && IsQuote(q)
    requires Finish(FeedAll(s, text)).Ok?
    ensures BodyOk(q, body) && text == BodyText(body) + [q] + rest
    decreases |text|
  {
    if text[0] == q {
      body, rest := [], text[1..];
    } else if text[0] == '\\' {
      if |text| == 1 {
        assert false;
      } else {
        assert text[1..][1..] == text[2..];
        var tail;
        tail, rest := SplitQuoted(Feed(Feed(s, '\\'), text[1]), q, text[2..]);
        body := [QuotedEscape(text[1])] + tail;
        assert text == ['\\', text[1]] + text[2..];
        BodyCons(q, QuotedEscape(text[1]), tail, rest);
      }
    } else {
      var tail;
      tail, rest := SplitQuoted(Feed(s, text[0]), q, text[1..]);
      body := [Raw(text[0])] + tail;
      assert text == [text[0]] + text[1..];
      BodyCons(q, Raw(text[0]), tail, rest);
    }
  }

  lemma {:induction false} SplitPieces(s: Scan, text: string) returns (ps: seq<Piece>)
    requires Outside(s) && Finish(FeedAll(s, text)).Ok?
    ensures PiecesOk(ps) && Text(ps) == text
    decreases |text|
  {
    if text == [] {
      ps := [];
    } else {
      var head, rest := FirstPiece(s, text);
      FeedPiece(s, head);
      FeedConcat(s, PieceText(head), rest);
      var tail := SplitPieces(FeedAll(s, PieceText(head)), rest);
      ps := [head] + tail;
    }
  }

  lemma FirstPiece(s: Scan, text: string) returns (head: Piece, rest: string)
    requires Outside(s) && text != [] && Finish(FeedAll(s, text)).Ok?
    ensures PieceOk(head) && text == PieceText(head) + rest && |rest| < |text|
  {
    var c := text[0];
    rest := text[1..];
    assert text == [c] + text[1..];
    if c == '\\' {
      if |text| == 1 {
        assert false;
      } else {
        head, rest := Escape(text[1]), text[2..];
        hide FeedAll;
        assert text == [c, text[1]] + text[2..];
      }
    } else if IsQuote(c) {
      var body;
      body, rest := SplitQuoted(Feed(s, c), c, text[1..]);
      head := Quoted(c, body);
      hide FeedAll;
      Regroup([c], BodyText(body) + [c], rest);
    } else if IsSpace(c) {
      head := Blank(c);
    } else {
      head := Bare(c);
    }
  }

  /**
   The command is accepted exactly when its trimmed text is a list of blanks, bare characters,
   escapes and closed quotes, and then the words are the ones that list stands for.
   */
  lemma AcceptsExactlyTheGrammar(command: string)
    ensures var r := Finish(FeedAll(START, Trim(command)));
            && (r.Ok? <==> exists ps :: PiecesOk(ps) && Text(ps) == Trim(command))
            && forall ps :: PiecesOk(ps) && Text(ps) == Trim(command) ==> r == Ok(Words("", ps))
  {
    var r := Finish(FeedAll(START, Trim(command)));
    if r.Ok? {
      var ps := SplitPieces(START, Trim(command));
    }
    forall ps | PiecesOk(ps) && Text(ps) == Trim(command) ensures r == Ok(Words("", ps)) {
      FeedPieces(START, ps);
      assert NonEmpty([]) + Words("", ps) == Words("", ps);
    }
  }

  // ---------------------------------------------------------------- pieces of text

  function Blanks(gap: string): seq<Piece> {
    if gap == "" then [] else [Blank(gap[0])] + Blanks(gap[1..])
  }

  lemma TextCons(p: Piece, ps: seq<Piece>)
    ensures Text([p] + ps) == PieceText(p) + Text(ps)
    ensures PieceOk(p) && PiecesOk(ps) ==> PiecesOk([p] + ps)
  {
    assert ([p] + ps)[1..] == ps;
  }

  lemma {:induction false} BlanksText(gap: string, more: seq<Piece>)
    requires (forall i :: 0 <= i < |gap| ==> IsSpace(gap[i])) && PiecesOk(more)
    ensures PiecesOk(Blanks(gap) + more) && Text(Blanks(gap) + more) == gap + Text(more)
    decreases |gap|
  {
    if gap == "" {
      assert Blanks(gap) + more == more;
    } else {
      hide Text;
      hide PiecesOk;
      BlanksText(gap[1..], more);
      Regroup([Blank(gap[0])], Blanks(gap[1..]), more);
      TextCons(Blank(gap[0]), Blanks(gap[1..]) + more);
      Regroup([gap[0]], gap[1..], Text(more));
      assert [gap[0]] + gap[1..] == gap;
    }
  }

  lemma {:induction false} BlanksWords(current: string, gap: string, more: seq<Piece>)
    ensures Words(current, Blanks(gap) + more)
            == if gap == "" then Words(current, more) else Word(current) + Words("", more)
    decreases |gap|
  {
    if gap == "" {
      assert Blanks(gap) + more == more;
    } else {
      var ps := Blanks(gap) + more;
      assert ps[0] == Blank(gap[0]) && ps[1..] == Blanks(gap[1..]) + more;
      BlanksWords("", gap[1..], more);
      assert Words(current, ps) == Word(current) + Words("", ps[1..]);
      hide Words;
      assert Word("") + Words("", more) == Words("", more);
    }
  }

  // ---------------------------------------------------------------- what trimming costs

  function DropBlanksLeft(ps: seq<Piece>): seq<Piece> {
    if ps != [] && ps[0].Blank? then DropBlanksLeft(ps[1..]) else ps
  }

  function DropBlanksRight(ps: seq<Piece>): seq<Piece> {
    if ps != [] && ps[|ps| - 1].Blank? then DropBlanksRight(ps[..|ps| - 1]) else ps
  }

  /** But for blanks after it, the last piece is a blank with a backslash before it. */
  predicate EndsInEscapedBlank(ps: seq<Piece>) {
    var core := DropBlanksRight(ps);
    core != [] && core[|core| - 1].Escape? && IsSpace(core[|core| - 1].c)
  }

  lemma {:induction false} TextConcat(ps: seq<Piece>, qs: seq<Piece>)
    ensures Text(ps + qs) == Text(ps) + Text(qs)
    decreases |ps|
  {
    if ps == [] {
      assert ps + qs == qs;
    } else {
      hide Text;
      TextConcat(ps[1..], qs);
      assert [ps[0]] + ps[1..] == ps;
      Regroup([ps[0]], ps[1..], qs);
      TextCons(ps[0], ps[1..]);
      TextCons(ps[0], ps[1..] + qs);
      Regroup(PieceText(ps[0]), Text(ps[1..]), Text(qs));
    }
  }

  lemma TextSnoc(ps: seq<Piece>)
    requires ps != []
    ensures Text(ps) == Text(ps[..|ps| - 1]) + PieceText(ps[|ps| - 1])
  {
    var last := ps[|ps| - 1];
    assert ps == ps[..|ps| - 1] + [last];
    TextConcat(ps[..|ps| - 1], [last]);
    TextCons(last, []);
    assert [last] + [] == [last] && PieceText(last) + Text([]) == PieceText(last);
  }

  lemma {:induction false} TrimLeftText(ps: seq<Piece>)
    requires PiecesOk(ps)
    ensures TrimLeft(Text(ps)) == Text(DropBlanksLeft(ps)) && PiecesOk(DropBlanksLeft(ps))
    ensures Words("", DropBlanksLeft(ps)) == Words("", ps)
    decreases |ps|
  {
    if ps != [] {
      assert PieceOk(ps[0]);
      if ps[0].Blank? {
        TrimLeftText(ps[1..]);
        assert Text(ps)[1..] == Text(ps[1..]);
        assert Word("") + Words("", ps[1..]) == Words("", ps[1..]);
      } else {
        assert Text(ps)[0] == PieceText(ps[0])[0];
      }
    }
  }

  function TrimmedEnd(ps: seq<Piece>): string {
    var core := DropBlanksRight(ps);
    if EndsInEscapedBlank(ps) then Text(core[..|core| - 1]) + "\\" else Text(core)
  }

  lemma {:induction false} TrimRightText(ps: seq<Piece>)
    requires PiecesOk(ps)
    ensures DropBlanksRight(ps) <= ps && TrimRight(Text(ps)) == TrimmedEnd(ps)
    decreases |ps|
  {
    if ps != [] {
      var init, last := ps[..|ps| - 1], ps[|ps| - 1];
      assert PieceOk(last) && PiecesOk(init);
      if last.Blank? {
        TrimRightText(init);
        TrimRightBlank(ps);
        assert DropBlanksRight(ps) == DropBlanksRight(init);
        assert TrimmedEnd(ps) == TrimmedEnd(init);
        hide Text;
        hide TrimRight;
        hide TrimmedEnd;
      } else {
        TrimRightEnd(ps);
      }
    }
  }

  lemma TrimRightBlank(ps: seq<Piece>)
    requires ps != [] && ps[|ps| - 1].Blank? && PieceOk(ps[|ps| - 1])
    ensures TrimRight(Text(ps)) == TrimRight(Text(ps[..|ps| - 1]))
  {
    TextSnoc(ps);
    hide Text;
    hide TrimRight;
    BlankText(ps[|ps| - 1]);
    TrimRightStep(Text(ps[..|ps| - 1]), ps[|ps| - 1].c);
  }

  lemma TrimRightEnd(ps: seq<Piece>)
    requires ps != [] && !ps[|ps| - 1].Blank? && PieceOk(ps[|ps| - 1])
    ensures TrimRight(Text(ps)) == TrimmedEnd(ps)
  {
    var init, last := ps[..|ps| - 1], ps[|ps| - 1];
    TextSnoc(ps);
    assert DropBlanksRight(ps) == ps;
    hide DropBlanksRight;
    hide Text;
    hide TrimRight;
    if EndsInEscapedBlank(ps) {
      EscapeAtEnd(Text(init), last.c);
    } else {
      PieceEnd(last);
      EndOf(Text(init), PieceText(last));
      TrimRightStops(Text(init) + PieceText(last));
    }
  }

  lemma BlankText(p: Piece)
    requires p.Blank? && PieceOk(p)
    ensures PieceText(p) == [p.c] && IsSpace(p.c)
  {
  }

  lemma EscapeAtEnd(t: string, c: char)
    requires IsSpace(c)
    ensures TrimRight(t + ['\\', c]) == t + "\\"
  {
    Regroup(t, "\\", [c]);
    TrimRightStep(t + "\\", c);
    TrimRightStops(t + "\\");
  }

  lemma PieceEnd(p: Piece)
    requires PieceOk(p) && !p.Blank? && (p.Escape? ==> !IsSpace(p.c))
    ensures PieceText(p) != "" && !IsSpace(PieceText(p)[|PieceText(p)| - 1])
  {
  }

  lemma EndOf(a: string, b: string)
    requires b != ""
    ensures (a + b)[|a + b| - 1] == b[|b| - 1]
  {
  }

  lemma TrimRightStep(t: string, c: char)
    requires IsSpace(c)
    ensures TrimRight(t + [c]) == TrimRight(t)
  {
    assert (t + [c])[..|t|] == t;
  }

  lemma TrimRightStops(t: string)
    requires t != "" && !IsSpace(t[|t| - 1])
    ensures TrimRight(t) == t
  {
  }

  lemma {:induction false} WordsBeforeBlank(current: string, ps: seq<Piece>, c: char)
    ensures Words(current, ps + [Blank(c)]) == Words(current, ps)
    decreases |ps|
  {
    if ps == [] {
      assert [] + [Blank(c)] == [Blank(c)] && [Blank(c)][1..] == [];
      assert Word(current) + [] == Word(current);
    } else {
      assert (ps + [Blank(c)])[1..] == ps[1..] + [Blank(c)];
      WordsBeforeBlank(if ps[0].Blank? then "" else current + PieceChars(ps[0]), ps[1..], c);
    }
  }

  lemma {:induction false} WordsWithoutEnd(ps: seq<Piece>)
    ensures Words("", DropBlanksRight(ps)) == Words("", ps)
    decreases |ps|
  {
    if ps != [] && ps[|ps| - 1].Blank? {
      WordsBeforeBlank("", ps[..|ps| - 1], ps[|ps| - 1].c);
      assert ps == ps[..|ps| - 1] + [Blank(ps[|ps| - 1].c)];
      WordsWithoutEnd(ps[..|ps| - 1]);
    }
  }

  /** Blanks in front do not matter to the end. */
  lemma {:induction false} EndAfterBlank(ps: seq<Piece>)
    requires ps != [] && ps[0].Blank?
    ensures EndsInEscapedBlank(ps) <==> EndsInEscapedBlank(ps[1..])
    decreases |ps|
  {
    if |ps| > 1 && ps[|ps| - 1].Blank? {
      assert ps[1..][..|ps| - 2] == ps[..|ps| - 1][1..];
      EndAfterBlank(ps[..|ps| - 1]);
    } else if |ps| == 1 {
      assert ps[..0] == ps[1..] == [];
    } else {
      assert ps[1..][|ps| - 2] == ps[|ps| - 1];
    }
  }

  lemma {:induction false} EndAfterBlanks(ps: seq<Piece>)
    ensures EndsInEscapedBlank(ps) <==> EndsInEscapedBlank(DropBlanksLeft(ps))
    decreases |ps|
  {
    if ps != [] && ps[0].Blank? {
      EndAfterBlank(ps);
      EndAfterBlanks(ps[1..]);
    }
  }

  lemma EndingInBackslash(ps: seq<Piece>)
    requires PiecesOk(ps)
    ensures Finish(FeedAll(START, Text(ps) + "\\")) == Err(Unterminated)
  {
    FeedPieces(START, ps);
    FeedConcat(START, Text(ps), "\\");
    var s := FeedAll(START, Text(ps));
    assert "\\"[1..] == "";
    assert FeedAll(s, "\\") == FeedAll(Feed(s, '\\'), "") == Feed(s, '\\');
  }

  /**
   A grammatical command is accepted, with the words it stands for, exactly when it does not end in an
   escaped blank: trimming takes that blank away and leaves its backslash with nothing to escape.
   */
  lemma GrammaticalIsAcceptedUnless(ps: seq<Piece>)
    requires PiecesOk(ps)
    ensures Finish(FeedAll(START, Trim(Text(ps))))
            == if EndsInEscapedBlank(ps) then Err(Unterminated) else Ok(Words("", ps))
  {
    var rest := DropBlanksLeft(ps);
    var core := DropBlanksRight(rest);
    TrimLeftText(ps);
    TrimRightText(rest);
    EndAfterBlanks(ps);
    if EndsInEscapedBlank(ps) {
      EndingInBackslash(core[..|core| - 1]);
    } else {
      WordsWithoutEnd(rest);
      FeedPieces(START, core);
      assert NonEmpty([]) + Words("", core) == Words("", core);
    }
  }

  lemma TrimLeftSplit(s: string) returns (lead: string)
    ensures (forall i :: 0 <= i < |lead| ==> IsSpace(lead[i])) && s == lead + TrimLeft(s)
  {
    if s != "" && IsSpace(s[0]) {
      var rest := TrimLeftSplit(s[1..]);
      lead := [s[0]] + rest;
      Regroup([s[0]], rest, TrimLeft(s[1..]));
      assert s == [s[0]] + s[1..];
    } else {
      lead := "";
    }
  }

  lemma TrimRightSplit(s: string) returns (trail: string)
    ensures (forall i :: 0 <= i < |trail| ==> IsSpace(trail[i])) && s == TrimRight(s) + trail
  {
    if s != "" && IsSpace(s[|s| - 1]) {
      var rest := TrimRightSplit(s[..|s| - 1]);
      trail := rest + [s[|s| - 1]];
      Regroup(TrimRight(s[..|s| - 1]), rest, [s[|s| - 1]]);
      assert s == s[..|s| - 1] + [s[|s| - 1]];
    } else {
      trail := "";
    }
  }

  /** And nothing else is accepted: any accepted command is grammatical, untrimmed, and has no such end. */
  lemma AcceptedIsGrammatical(command: string) returns (ps: seq<Piece>)
    requires Finish(FeedAll(START, Trim(command))).Ok?
    ensures PiecesOk(ps) && Text(ps) == command && !EndsInEscapedBlank(ps)
  {
    var qs := SplitPieces(START, Trim(command));
    var lead := TrimLeftSplit(command);
    var trail := TrimRightSplit(TrimLeft(command));
    BlanksText(trail, []);
    assert Blanks(trail) + [] == Blanks(trail) && trail + Text([]) == trail;
    TextConcat(qs, Blanks(trail));
    BlanksText(lead, qs + Blanks(trail));
    ps := Blanks(lead) + (qs + Blanks(trail));
    GrammaticalIsAcceptedUnless(ps);
  }

  /** For example `a\ `, the letter a and an escaped blank. */
  lemma EscapedBlankIsRefused()
    ensures Finish(FeedAll(START, Trim("a\\ "))) == Err(Unterminated)
  {
    var ps := [Bare('a'), Escape(' ')];
    assert Text(ps[1..][1..]) == "" && ['\\', ' '] + "" == ['\\', ' '];
    assert Text(ps) == "a\\ ";
    assert DropBlanksRight(ps) == ps;
    GrammaticalIsAcceptedUnless(ps);
  }

  // ---------------------------------------------------------------- the round trip

  /** Tab, line feed, vertical tab, form feed, carriage return, blank, and what else Unicode calls white space. */
  const WHITE_SPACE: string :=
    "\t\n\U{0B}\U{0C}\r \U{A0}\U{1680}\U{2000}\U{2001}\U{2002}\U{2003}\U{2004}\U{2005}\U{2006}\U{2007}\U{2008}\U{2009}"
    + "\U{200A}\U{2028}\U{2029}\U{202F}\U{205F}\U{3000}\U{FEFF}"

  lemma SpacesAre(c: char)
    ensures IsSpace(c) <==> c in WHITE_SPACE
  {
  }

  predicate AllSpace(s: string) {
    forall i :: 0 <= i < |s| ==> s[i] in WHITE_SPACE
  }

  /** How a word is written in the command. */
  datatype Spelling = Unquoted | InSingles | InDoubles

  /** With a backslash before every backslash and every `quote`. */
  function Escaped(w: string, quote: char): string {
    if w == "" then ""
    else (if w[0] == '\\' || w[0] == quote then ['\\', w[0]] else [w[0]]) + Escaped(w[1..], quote)
  }

  function Spelled(w: string, s: Spelling): string {
    match s
    case Unquoted => w
    case InSingles => ['\''] + Escaped(w, '\'') + ['\'']
    case InDoubles => ['"'] + Escaped(w, '"') + ['"']
  }

  /** Only a word without white space, quotes and backslashes can do without quotes. */
  predicate CanSpell(w: string, s: Spelling) {
    s.Unquoted? ==>
      w != "" && forall i :: 0 <= i < |w| ==> w[i] !in WHITE_SPACE && w[i] != '\'' && w[i] != '"' && w[i] != '\\'
  }

  datatype Spoken = Spoken(word: string, spelling: Spelling, gap: string)

  /** Any white space between the words, and perhaps after the last one. */
  predicate CanSay(line: seq<Spoken>) {
    forall i :: 0 <= i < |line| ==>
      CanSpell(line[i].word, line[i].spelling) && AllSpace(line[i].gap) && (line[i].gap != "" || i == |line| - 1)
  }

  function Line(line: seq<Spoken>): string {
    if line == [] then "" else Spelled(line[0].word, line[0].spelling) + line[0].gap + Line(line[1..])
  }

  /** The words said, without the empty ones. */
  function WordsSaid(line: seq<Spoken>): seq<string> {
    if line == [] then [] else (if line[0].word == "" then [] else [line[0].word]) + WordsSaid(line[1..])
  }

  function QuotedChars(w: string, quote: char): seq<QuotedChar> {
    if w == "" then []
    else [if w[0] == '\\' || w[0] == quote then QuotedEscape(w[0]) else Raw(w[0])] + QuotedChars(w[1..], quote)
  }

  lemma {:induction false} QuotedCharsMean(w: string, quote: char)
    ensures var body := QuotedChars(w, quote);
            BodyOk(quote, body) && BodyChars(body) == w && BodyText(body) == Escaped(w, quote)
    decreases |w|
  {
    if w != "" {
      QuotedCharsMean(w[1..], quote);
      assert [w[0]] + w[1..] == w;
    }
  }

  function BareChars(w: string): seq<Piece> {
    if w == "" then [] else [Bare(w[0])] + BareChars(w[1..])
  }

  /** A word's pieces add the word to what comes before it. */
  ghost predicate Adds(ps: seq<Piece>, w: string) {
    forall current, more :: Words(current, ps + more) == Words(current + w, more)
  }

  predicate NoEscapes(ps: seq<Piece>) {
    forall i :: 0 <= i < |ps| ==> !ps[i].Escape?
  }

  lemma {:induction false} BareCharsMean(w: string)
    requires CanSpell(w, Unquoted) || w == ""
    ensures PiecesOk(BareChars(w)) && NoEscapes(BareChars(w)) && Text(BareChars(w)) == w && Adds(BareChars(w), w)
    decreases |w|
  {
    if w == "" {
      AddsNothing();
    } else {
      SpacesAre(w[0]);
      BareCharsMean(w[1..]);
      TextCons(Bare(w[0]), BareChars(w[1..]));
      assert [w[0]] + w[1..] == w;
      AddsMore(Bare(w[0]), BareChars(w[1..]), w[1..]);
    }
  }

  lemma AddsNothing()
    ensures Adds([], "")
  {
    forall current, more ensures Words(current, [] + more) == Words(current + "", more) {
      assert [] + more == more && current + "" == current;
    }
  }

  lemma AddsMore(p: Piece, ps: seq<Piece>, w: string)
    requires Adds(ps, w) && !p.Blank?
    ensures Adds([p] + ps, PieceChars(p) + w)
  {
    forall current, more ensures Words(current, [p] + ps + more) == Words(current + (PieceChars(p) + w), more) {
      Regroup([p], ps, more);
      assert ([p] + (ps + more))[1..] == ps + more;
      Regroup(current, PieceChars(p), w);
    }
  }

  lemma SpelledPieces(w: string, s: Spelling) returns (ps: seq<Piece>)
    requires CanSpell(w, s)
    ensures PiecesOk(ps) && NoEscapes(ps) && Text(ps) == Spelled(w, s) && Adds(ps, w)
  {
    if s.Unquoted? {
      BareCharsMean(w);
      ps := BareChars(w);
    } else {
      ps := QuotedPiece(if s.InSingles? then '\'' else '"', w);
    }
  }

  lemma QuotedPiece(quote: char, w: string) returns (ps: seq<Piece>)
    requires quote == '\'' || quote == '"'
    ensures PiecesOk(ps) && NoEscapes(ps) && Text(ps) == [quote] + Escaped(w, quote) + [quote] && Adds(ps, w)
  {
    QuotedCharsMean(w, quote);
    var p := Quoted(quote, QuotedChars(w, quote));
    ps := [p] + [];
    TextCons(p, []);
    assert PieceText(p) + Text([]) == PieceText(p);
    AddsNothing();
    AddsMore(p, [], "");
    assert w + "" == w;
  }

  lemma {:induction false} LinePieces(line: seq<Spoken>) returns (ps: seq<Piece>)
    requires CanSay(line)
    ensures PiecesOk(ps) && NoEscapes(ps) && Text(ps) == Line(line) && Words("", ps) == WordsSaid(line)
    ensures line == [] ==> ps == []
    decreases |line|
  {
    if line == [] {
      ps := [];
    } else {
      var first := line[0];
      var word := SpelledPieces(first.word, first.spelling);
      var rest := LinePieces(line[1..]);
      hide PiecesOk;
      hide NoEscapes;
      hide Spelled;
      hide CanSpell;
      hide BodyText;
      GapPieces(first.gap, rest);
      FinePieces(word, Blanks(first.gap) + rest);
      BlanksWords(first.word, first.gap, rest);
      TextConcat(word, Blanks(first.gap) + rest);
      Regroup(Spelled(first.word, first.spelling), first.gap, Line(line[1..]));
      ps := word + (Blanks(first.gap) + rest);
      assert "" + first.word == first.word;
      assert Words("", ps) == Words("" + first.word, Blanks(first.gap) + rest);
      hide Words;
      hide Text;
      hide Adds;
      if first.gap == "" {
        assert line[1..] == [];
        LastWord(first.word);
      }
    }
  }

  lemma FinePieces(ps: seq<Piece>, qs: seq<Piece>)
    requires PiecesOk(ps) && PiecesOk(qs) && NoEscapes(ps) && NoEscapes(qs)
    ensures PiecesOk(ps + qs) && NoEscapes(ps + qs)
  {
  }

  lemma LastWord(w: string)
    ensures Words(w, []) == Word(w) + []
  {
  }

  lemma GapPieces(gap: string, rest: seq<Piece>)
    requires AllSpace(gap) && PiecesOk(rest) && NoEscapes(rest)
    ensures PiecesOk(Blanks(gap) + rest) && Text(Blanks(gap) + rest) == gap + Text(rest)
    ensures NoEscapes(Blanks(gap) + rest)
  {
    forall i | 0 <= i < |gap| ensures IsSpace(gap[i]) {
      SpacesAre(gap[i]);
    }
    BlanksText(gap, rest);
    BlanksAreBlank(gap);
  }

  lemma {:induction false} BlanksAreBlank(gap: string)
    ensures forall i :: 0 <= i < |Blanks(gap)| ==> Blanks(gap)[i].Blank?
    decreases |gap|
  {
    if gap != "" {
      BlanksAreBlank(gap[1..]);
    }
  }

  lemma NoEscapeAtEnd(ps: seq<Piece>)
    requires PiecesOk(ps) && NoEscapes(ps)
    ensures !EndsInEscapedBlank(ps)
  {
    TrimRightText(ps);
    var core := DropBlanksRight(ps);
    if core != [] {
      assert core[|core| - 1] == ps[|core| - 1];
    }
  }

  /**
   Words written in single quotes, in double quotes, or bare, and separated by any white space, are read back;
   empty words disappear.
   */
  lemma QuotingRoundTrip(lead: string, line: seq<Spoken>)
    requires AllSpace(lead) && CanSay(line)
    ensures Finish(FeedAll(START, Trim(lead + Line(line)))) == Ok(WordsSaid(line))
  {
    var ps := LinePieces(line);
    GapPieces(lead, ps);
    BlanksWords("", lead, ps);
    NoEscapeAtEnd(Blanks(lead) + ps);
    GrammaticalIsAcceptedUnless(Blanks(lead) + ps);
    assert Word("") + Words("", ps) == Words("", ps);
    hide Words;
    hide Finish;
    hide FeedAll;
    hide Trim;
  }

  /** A quote that is opened and not closed is refused, whatever stands before it and in it. */
  lemma OpenQuoteIsRefused(line: seq<Spoken>, quote: char, w: string)
    requires CanSay(line) && (quote == '\'' || quote == '"')
    ensures Finish(FeedAll(START, Trim(Line(line) + ([quote] + Escaped(w, quote))))) == Err(Unterminated)
  {
    var command := Line(line) + ([quote] + Escaped(w, quote));
    if Finish(FeedAll(START, Trim(command))).Ok? {
      var qs := AcceptedIsGrammatical(command);
      FeedPieces(START, qs);
      var ps := LinePieces(line);
      FeedPieces(START, ps);
      var s := FeedAll(START, Line(line));
      FeedConcat(START, Line(line), [quote] + Escaped(w, quote));
      OpenQuoteStaysOpen(s, quote, w);
      assert false;
    }
  }

  lemma OpenQuoteStaysOpen(s: Scan, quote: char, w: string)
    requires Outside(s) && (quote == '\'' || quote == '"')
    ensures FeedAll(s, [quote] + Escaped(w, quote)).quote == Some(quote)
  {
    QuotedCharsMean(w, quote);
    FeedConcat(s, [quote], Escaped(w, quote));
    assert FeedAll(s, [quote]) == Feed(s, quote);
    FeedBody(Feed(s, quote), quote, QuotedChars(w, quote));
  }
}
