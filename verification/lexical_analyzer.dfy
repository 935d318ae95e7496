/**
 * The scanner of the generating pipeline (`LexicalAnalyzer`, `src/lexer/LexicalAnalyzer.ts`):
 * one pass over the text with a cursor, a line and a column, appending tokens or errors.
 * Every helper is a pure function from the scanner state to the next one; each of the
 * source's `while (...) advance()` loops is an index function (where the loop stops)
 * followed by `AdvanceTo`, which advances one character at a time up to that index.
 */
module LexicalAnalyzer {
  import opened Common

  /** `TokenType`. */
  datatype TokenType =
    | Using | System | Public | Class | Static | Void | MainKw
    | StringType | IntType | FloatType | CharType | BoolType
    | If | Else | For | Console | WriteLine
    | True | False | Integer | Float | StringLit | CharLit | Identifier
    | Assign | Plus | Minus | Multiply | Divide
    | Equals | NotEquals | Lt | Gt | Lte | Gte | Increment | Decrement
    | Semicolon | Comma | Dot | LParen | RParen | LBrace | RBrace | LBracket | RBracket
    | Comment

  datatype Token = Token(kind: TokenType, lexeme: string, line: nat, column: nat)

  /** The three `description` texts a lexical error can carry. */
  datatype Description = UnterminatedString | InvalidChar | UnknownChar

  function DescriptionText(d: Description): string {
    match d
    case UnterminatedString => "String no terminada"
    case InvalidChar => "Carácter no válido"
    case UnknownChar => "Carácter desconocido"
  }

  datatype LexicalError = LexicalError(character: string, line: nat, column: nat, description: Description)

  /** The reserved words, a `Map` looked up by exact key. */
  const Keywords: map<string, TokenType> := map[
    "using" := Using, "System" := System, "public" := Public, "class" := Class,
    "static" := Static, "void" := Void, "Main" := MainKw, "string" := StringType,
    "int" := IntType, "float" := FloatType, "char" := CharType, "bool" := BoolType,
    "if" := If, "else" := Else, "for" := For, "Console" := Console, "WriteLine" := WriteLine,
    "true" := True, "false" := False]

  /** `keywords.get(value) || IDENTIFIER`. */
  function WordKind(w: string): (k: TokenType)
    ensures k.Identifier? <==> w !in Keywords
    ensures w in Keywords ==> k == Keywords[w]
  {
    if w in Keywords then Keywords[w] else Identifier
  }

  /** `getOperatorType`: the six two-character operators, `'UNKNOWN'` otherwise. */
  function OperatorType(op: string): Option<TokenType> {
    if op == "==" then Some(Equals)
    else if op == "!=" then Some(NotEquals)
    else if op == "<=" then Some(Lte)
    else if op == ">=" then Some(Gte)
    else if op == "++" then Some(Increment)
    else if op == "--" then Some(Decrement)
    else None
  }

  /** The table of single-character tokens. */
  function SingleCharType(c: char): Option<TokenType> {
    match c
    case ';' => Some(Semicolon)
    case ',' => Some(Comma)
    case '.' => Some(Dot)
    case '(' => Some(LParen)
    case ')' => Some(RParen)
    case '{' => Some(LBrace)
    case '}' => Some(RBrace)
    case '[' => Some(LBracket)
    case ']' => Some(RBracket)
    case '=' => Some(Assign)
    case '+' => Some(Plus)
    case '-' => Some(Minus)
    case '*' => Some(Multiply)
    case '/' => Some(Divide)
    case '<' => Some(Lt)
    case '>' => Some(Gt)
    case _ => None
  }

  // ---------------------------------------------------------------- character classes

  /** `/\d/` */
  predicate IsDigit(c: char) { '0' <= c <= '9' }
  /** `/[a-zA-Z_]/` */
  predicate IsWordStart(c: char) { 'a' <= c <= 'z' || 'A' <= c <= 'Z' || c == '_' }
  /** `/[a-zA-Z0-9_]/` */
  predicate IsWordChar(c: char) { IsWordStart(c) || IsDigit(c) }

  // ---------------------------------------------------------------- positions in the text

  /** Where the line holding position `i` starts: just after the last `\n` before `i`. */
  function LineStart(s: string, i: nat): (r: nat)
    requires i <= |s|
    ensures r <= i && (r > 0 ==> s[r - 1] == '\n')
    ensures forall k :: r <= k < i ==> s[k] != '\n'
    decreases i
  {
    if i == 0 then 0 else if s[i - 1] == '\n' then i else LineStart(s, i - 1)
  }

  /** The 1-based line of position `i`: one more than the line breaks before it. */
  function LineAt(s: string, i: nat): nat
    requires i <= |s|
  {
    1 + Count(s[..i], '\n')
  }

  /** The 1-based column of position `i` on its line. */
  function ColumnAt(s: string, i: nat): nat
    requires i <= |s|
  {
    1 + i - LineStart(s, i)
  }

  // ---------------------------------------------------------------- scanner state

  datatype Scanner = Scanner(pos: nat, line: nat, column: nat, tokens: seq<Token>, errors: seq<LexicalError>)

  /** The constructor: position 0, line 1, column 1. */
  const Start := Scanner(0, 1, 1, [], [])

  /** The line and column the scanner keeps are those of its position in the text. */
  predicate Tracks(s: string, st: Scanner) {
    st.pos <= |s| && st.line == LineAt(s, st.pos) && st.column == ColumnAt(s, st.pos)
  }

  /**
   * `advance`: past a `\n` the line goes up and the column restarts at 1, past anything else
   * the column goes up; at the end of the text nothing changes.
   */
  function Advance(s: string, st: Scanner): (r: Scanner)
    ensures st.pos < |s| && s[st.pos] == '\n' ==> r.pos == st.pos + 1 && r.line == st.line + 1 && r.column == 1
    ensures st.pos < |s| && s[st.pos] != '\n' ==> r.pos == st.pos + 1 && r.line == st.line && r.column == st.column + 1
    ensures st.pos >= |s| ==> r == st
    ensures r.tokens == st.tokens && r.errors == st.errors
  {
    if st.pos < |s| then
      if s[st.pos] == '\n' then st.(pos := st.pos + 1, line := st.line + 1, column := 1)
      else st.(pos := st.pos + 1, column := st.column + 1)
    else st
  }

  /** `advance` keeps the line and column in step with the position. */
  lemma AdvanceTracks(s: string, st: Scanner)
    ensures Tracks(s, st) ==> Tracks(s, Advance(s, st))
  {
    if Tracks(s, st) && st.pos < |s| {
      var i := st.pos;
      assert s[..i + 1] == s[..i] + [s[i]];
      CountConcat(s[..i], [s[i]], '\n');
    }
  }

  /** `advance` called until the position is `j`. */
  function AdvanceTo(s: string, st: Scanner, j: nat): (r: Scanner)
    requires st.pos <= j <= |s|
    ensures r.pos == j && r.tokens == st.tokens && r.errors == st.errors
    ensures Tracks(s, st) ==> Tracks(s, r)
    ensures (forall k :: st.pos <= k < j ==> s[k] != '\n') ==> r.line == st.line && r.column == st.column + (j - st.pos)
    decreases j - st.pos
  {
    if st.pos == j then st
    else
      AdvanceTracks(s, st);
      AdvanceTo(s, Advance(s, st), j)
  }

  // ---------------------------------------------------------------- where the loops stop

  /** The `skipWhitespace` loop: up to the first character outside `\s`. */
  function SpaceEnd(s: string, i: nat): (r: nat)
    requires i <= |s|
    ensures i <= r <= |s| && (r == |s| || !IsJsSpace(s[r]))
    ensures forall k :: i <= k < r ==> IsJsSpace(s[k])
    decreases |s| - i
  {
    if i < |s| && IsJsSpace(s[i]) then SpaceEnd(s, i + 1) else i
  }

  /** A run of digits. */
  function DigitsEnd(s: string, i: nat): (r: nat)
    requires i <= |s|
    ensures i <= r <= |s| && (r == |s| || !IsDigit(s[r]))
    ensures forall k :: i <= k < r ==> IsDigit(s[k])
    decreases |s| - i
  {
    if i < |s| && IsDigit(s[i]) then DigitsEnd(s, i + 1) else i
  }

  /** A run of `[a-zA-Z0-9_]`. */
  function WordEnd(s: string, i: nat): (r: nat)
    requires i <= |s|
    ensures i <= r <= |s| && (r == |s| || !IsWordChar(s[r]))
    ensures forall k :: i <= k < r ==> IsWordChar(s[k])
    decreases |s| - i
  {
    if i < |s| && IsWordChar(s[i]) then WordEnd(s, i + 1) else i
  }

  /** Up to the next occurrence of `c`, or the end. */
  function Until(s: string, i: nat, c: char): (r: nat)
    requires i <= |s|
    ensures i <= r <= |s| && (r == |s| || s[r] == c)
    ensures forall k :: i <= k < r ==> s[k] != c
    decreases |s| - i
  {
    if i < |s| && s[i] != c then Until(s, i + 1, c) else i
  }

  /** A `*` followed by a `/` at position `k`. */
  predicate ClosesAt(s: string, k: nat) {
    k + 1 < |s| && s[k] == '*' && s[k + 1] == '/'
  }

  // The block-comment loop: just past the first `*/` found from `i`, or the end when there is none.
  function BlockEnd(s: string, i: nat): (r: nat)
    requires i <= |s|
    ensures i <= r <= |s|
    ensures (r >= i + 2 && ClosesAt(s, r - 2)) || r == |s|
    ensures forall k :: i <= k < r - 2 ==> !ClosesAt(s, k)
    ensures r == |s| && !(r >= i + 2 && ClosesAt(s, r - 2)) ==> forall k :: i <= k < |s| ==> !ClosesAt(s, k)
    decreases |s| - i
  {
    if i >= |s| then |s|
    else if ClosesAt(s, i) then i + 2
    else BlockEnd(s, i + 1)
  }

  // ---------------------------------------------------------------- token shapes

  /** The text `v` occurs in `s` at position `k`. */
  predicate Spans(s: string, k: nat, v: string) {
    k + |v| <= |s| && s[k..k + |v|] == v
  }

  /** A run of digits. */
  predicate IntegerShape(v: string) {
    |v| > 0 && forall k :: 0 <= k < |v| ==> IsDigit(v[k])
  }

  /** Digits, one `.`, more digits, and possibly a final `f`. */
  predicate FloatShape(v: string) {
    && |v| >= 2 && IsDigit(v[0]) && '.' in v
    && (forall k :: 0 <= k < |v| ==> IsDigit(v[k]) || v[k] == '.' || (v[k] == 'f' && k == |v| - 1))
    && (forall k, m :: 0 <= k < m < |v| && v[k] == '.' ==> v[m] != '.')
  }

  /** Both quotes kept, no quote between them. */
  predicate StringShape(v: string) {
    |v| >= 2 && v[0] == '"' && v[|v| - 1] == '"' && forall k :: 0 < k < |v| - 1 ==> v[k] != '"'
  }

  /** One character that is not a quote, between quotes. */
  predicate CharShape(v: string) {
    |v| == 3 && v[0] == '\'' && v[2] == '\'' && v[1] != '\''
  }

  /** A `[a-zA-Z_]` followed by `[a-zA-Z0-9_]`. */
  predicate WordShape(v: string) {
    |v| > 0 && IsWordStart(v[0]) && forall k :: 0 <= k < |v| ==> IsWordChar(v[k])
  }

  /** `//` and no line break, or `/` `*` and anything. */
  predicate CommentShape(v: string) {
    |v| >= 2 && v[0] == '/' && ((v[1] == '/' && '\n' !in v) || v[1] == '*')
  }

  /** What a token of each kind looks like. */
  predicate WellFormed(t: Token) {
    var v := t.lexeme;
    match t.kind
    case Integer => IntegerShape(v)
    case Float => FloatShape(v)
    case StringLit => StringShape(v)
    case CharLit => CharShape(v)
    case Identifier => WordShape(v) && v !in Keywords
    case Comment => CommentShape(v)
    case Equals | NotEquals | Lte | Gte | Increment | Decrement => OperatorType(v) == Some(t.kind)
    case Semicolon | Comma | Dot | LParen | RParen | LBrace | RBrace | LBracket | RBracket
      | Assign | Plus | Minus | Multiply | Divide | Lt | Gt =>
      |v| == 1 && SingleCharType(v[0]) == Some(t.kind)
    case _ => WordShape(v) && v in Keywords && Keywords[v] == t.kind
  }

  /** A token scanned at the scanner's position: the text there, at its line and column. */
  predicate ScannedAt(s: string, st: Scanner, t: Token) {
    Spans(s, st.pos, t.lexeme) && t.line == st.line && t.column == st.column
  }

  /** No occurrence of `c` from `i` on. */
  lemma NotInSuffix(s: string, i: nat, c: char)
    requires i <= |s| && forall k :: i <= k < |s| ==> s[k] != c
    ensures c !in s[i..]
  {
    forall x | x in s[i..] ensures x != c {
      var k :| 0 <= k < |s| - i && s[i..][k] == x;
      assert s[i + k] == x;
    }
  }

  // ---------------------------------------------------------------- the scan functions

  /**
   * `scanString`: the text up to the next `"`, as a token that keeps both quotes, at the
   * opening quote; without a closing quote the rest of the text is consumed and one error is
   * reported at the opening quote.
   */
  function ScanString(s: string, st: Scanner): (r: (Scanner, Option<Token>))
    requires st.pos < |s| && s[st.pos] == '"'
    ensures r.1.Some? <==> '"' in s[st.pos + 1..]
    ensures r.1.Some? ==> (r.1.value.kind.StringLit? && ScannedAt(s, st, r.1.value) && StringShape(r.1.value.lexeme)
      && r.0.pos == st.pos + |r.1.value.lexeme| && r.0.tokens == st.tokens && r.0.errors == st.errors)
    ensures r.1.None? ==> (r.0.pos == |s| && r.0.tokens == st.tokens
      && r.0.errors == st.errors + [LexicalError("\"", st.line, st.column, UnterminatedString)])
    ensures Tracks(s, st) ==> Tracks(s, r.0)
  {
    var j := Until(s, st.pos + 1, '"');
    if j < |s| then
      assert s[st.pos + 1..][j - st.pos - 1] == '"';
      assert s[st.pos..j + 1] == "\"" + s[st.pos + 1..j] + "\"";
      (AdvanceTo(s, st, j + 1), Some(Token(StringLit, "\"" + s[st.pos + 1..j] + "\"", st.line, st.column)))
    else
      var r := AdvanceTo(s, st, |s|);
      NotInSuffix(s, st.pos + 1, '"');
      (r.(errors := r.errors + [LexicalError("\"", st.line, st.column, UnterminatedString)]), None)
  }

  /**
   * `scanChar`: exactly one character that is not a quote, between quotes.  Otherwise one
   * error at the opening quote, and what was read is not given back.
   */
  function ScanChar(s: string, st: Scanner): (r: (Scanner, Option<Token>))
    requires st.pos < |s| && s[st.pos] == '\''
    ensures r.1.Some? <==> st.pos + 2 < |s| && s[st.pos + 1] != '\'' && s[st.pos + 2] == '\''
    ensures r.1.Some? ==> (r.1.value.kind.CharLit? && ScannedAt(s, st, r.1.value) && CharShape(r.1.value.lexeme)
      && r.0.pos == st.pos + 3 && r.0.tokens == st.tokens && r.0.errors == st.errors)
    ensures r.1.None? ==> (st.pos < r.0.pos <= st.pos + 2 && r.0.tokens == st.tokens
      && r.0.errors == st.errors + [LexicalError("'", st.line, st.column, InvalidChar)])
    ensures Tracks(s, st) ==> Tracks(s, r.0)
  {
    var p := st.pos + 1;
    if p < |s| && s[p] != '\'' && p + 1 < |s| && s[p + 1] == '\'' then
      assert s[st.pos..st.pos + 3] == "'" + [s[p]] + "'";
      (AdvanceTo(s, st, p + 2), Some(Token(CharLit, "'" + [s[p]] + "'", st.line, st.column)))
    else
      var r := AdvanceTo(s, st, if p < |s| && s[p] != '\'' then p + 1 else p);
      (r.(errors := r.errors + [LexicalError("'", st.line, st.column, InvalidChar)]), None)
  }

  /** The loops of `scanNumber`: where the lexeme ends, and whether a `.` was seen. */
  function NumberEnd(s: string, i: nat): (r: (nat, bool))
    requires i < |s| && IsDigit(s[i])
    ensures i < r.0 <= |s|
  {
    var j1 := DigitsEnd(s, i);
    var isFloat := j1 < |s| && s[j1] == '.';
    var j2 := if isFloat then DigitsEnd(s, j1 + 1) else j1;
    (if isFloat && j2 < |s| && s[j2] == 'f' then j2 + 1 else j2, isFloat)
  }

  /**
   * A number is an integer run that stops before anything that is not a digit or a point,
   * or a decimal with exactly one point; `FLOAT` exactly when the lexeme holds the point.
   */
  lemma NumberLexeme(s: string, i: nat)
    requires i < |s| && IsDigit(s[i])
    ensures var (j, isFloat) := NumberEnd(s, i);
      && (isFloat <==> '.' in s[i..j])
      && (isFloat ==> FloatShape(s[i..j]))
      && (!isFloat ==> IntegerShape(s[i..j]) && (j == |s| || (!IsDigit(s[j]) && s[j] != '.')))
  {
    var (j, isFloat) := NumberEnd(s, i);
    var j1 := DigitsEnd(s, i);
    var v := s[i..j];
    assert forall k :: 0 <= k < |v| ==> v[k] == s[i + k];
    if isFloat {
      assert v[j1 - i] == '.';
    } else {
      assert j == j1;
    }
  }

  /**
   * `scanNumber`: digits, then a `.` and more digits, then an `f` only after a decimal
   * point; `FLOAT` exactly when the point was seen.
   */
  function ScanNumber(s: string, st: Scanner): (r: (Scanner, Token))
    requires st.pos < |s| && IsDigit(s[st.pos])
    ensures ScannedAt(s, st, r.1) && r.0.pos == st.pos + |r.1.lexeme|
    ensures r.0.tokens == st.tokens && r.0.errors == st.errors
    ensures (r.1.kind.Integer? || r.1.kind.Float?) && (r.1.kind.Float? <==> '.' in r.1.lexeme)
    ensures r.1.kind.Integer? ==> IntegerShape(r.1.lexeme) && (r.0.pos == |s| || (!IsDigit(s[r.0.pos]) && s[r.0.pos] != '.'))
    ensures r.1.kind.Float? ==> FloatShape(r.1.lexeme)
    ensures Tracks(s, st) ==> Tracks(s, r.0)
  {
    var (j, isFloat) := NumberEnd(s, st.pos);
    NumberLexeme(s, st.pos);
    (AdvanceTo(s, st, j), Token(if isFloat then Float else Integer, s[st.pos..j], st.line, st.column))
  }

  /** `scanIdentifier`: the longest `[a-zA-Z0-9_]` run, typed by the keyword table. */
  function ScanIdentifier(s: string, st: Scanner): (r: (Scanner, Token))
    requires st.pos < |s| && IsWordStart(s[st.pos])
    ensures ScannedAt(s, st, r.1) && r.0.pos == st.pos + |r.1.lexeme|
    ensures r.0.tokens == st.tokens && r.0.errors == st.errors
    ensures r.1.kind == WordKind(r.1.lexeme) && WordShape(r.1.lexeme)
    ensures r.0.pos == |s| || !IsWordChar(s[r.0.pos])
    ensures Tracks(s, st) ==> Tracks(s, r.0)
  {
    var j := WordEnd(s, st.pos);
    var v := s[st.pos..j];
    assert forall k :: 0 <= k < |v| ==> v[k] == s[st.pos + k];
    (AdvanceTo(s, st, j), Token(WordKind(s[st.pos..j]), s[st.pos..j], st.line, st.column))
  }

  // `scanComment`: `//` up to (not including) the next `\n`; `/*` up to and including the
  // next `*/`, or to the end of the text with no error; nothing for any other text.
  function ScanComment(s: string, st: Scanner): (r: (Scanner, Option<Token>))
    requires st.pos <= |s|
    ensures r.1.Some? <==> st.pos + 1 < |s| && s[st.pos] == '/' && (s[st.pos + 1] == '/' || s[st.pos + 1] == '*')
    ensures r.1.Some? ==> (r.1.value.kind.Comment? && ScannedAt(s, st, r.1.value) && CommentShape(r.1.value.lexeme)
      && r.0.pos == st.pos + |r.1.value.lexeme| && r.0.tokens == st.tokens && r.0.errors == st.errors)
    ensures r.1.Some? && s[st.pos + 1] == '/' ==> r.0.pos == |s| || s[r.0.pos] == '\n'
    ensures r.1.None? ==> r.0 == st
    ensures Tracks(s, st) ==> Tracks(s, r.0)
  {
    if st.pos + 1 < |s| && s[st.pos] == '/' && s[st.pos + 1] == '/' then
      var j := Until(s, st.pos, '\n');
      var v := s[st.pos..j];
      assert forall k :: 0 <= k < |v| ==> v[k] == s[st.pos + k];
      (AdvanceTo(s, st, j), Some(Token(Comment, s[st.pos..j], st.line, st.column)))
    else if st.pos + 1 < |s| && s[st.pos] == '/' && s[st.pos + 1] == '*' then
      var j := BlockEnd(s, st.pos + 2);
      assert s[st.pos..j][0] == '/' && s[st.pos..j][1] == '*';
      (AdvanceTo(s, st, j), Some(Token(Comment, s[st.pos..j], st.line, st.column)))
    else
      (st, None)
  }

  /** `tokens.push` of a scanned token, if there is one. */
  function Push(r: (Scanner, Option<Token>)): Scanner {
    if r.1.Some? then r.0.(tokens := r.0.tokens + [r.1.value]) else r.0
  }

  /** An error reported at the scanner's position, for the character there. */
  predicate ErrorAt(s: string, st: Scanner, e: LexicalError) {
    st.pos < |s| && e.character == [s[st.pos]] && e.line == st.line && e.column == st.column
  }

  /** One well-formed token scanned at the old position was appended, and no error. */
  predicate NewToken(s: string, st: Scanner, r: Scanner) {
    && r.errors == st.errors && |r.tokens| == |st.tokens| + 1
    && r.tokens == st.tokens + [r.tokens[|st.tokens|]]
    && ScannedAt(s, st, r.tokens[|st.tokens|]) && WellFormed(r.tokens[|st.tokens|])
  }

  /** One error reported at the old position was appended, and no token. */
  predicate NewError(s: string, st: Scanner, r: Scanner) {
    && r.tokens == st.tokens && |r.errors| == |st.errors| + 1
    && r.errors == st.errors + [r.errors[|st.errors|]]
    && ErrorAt(s, st, r.errors[|st.errors|])
  }

  /** What one iteration does: it moves forward, and appends exactly one token or one error. */
  predicate StepOk(s: string, st: Scanner, r: Scanner) {
    st.pos < r.pos <= |s| && (NewToken(s, st, r) || NewError(s, st, r))
  }

  /** Every reserved word is mapped to a reserved-word kind. */
  lemma KeywordKinds(w: string)
    requires w in Keywords
    ensures WellFormed(Token(Keywords[w], w, 0, 0)) <==> WordShape(w)
  {
  }

  /**
   * One iteration of `analyze` after the white space: comments, strings, characters,
   * numbers, words, two-character operators, single characters, and otherwise an error for
   * the unknown character, in that order.
   */
  function Step(s: string, st: Scanner): (r: Scanner)
    requires st.pos < |s|
  {
    var c := s[st.pos];
    var next := st.pos + 1 < |s|;
    if c == '/' && next && (s[st.pos + 1] == '/' || s[st.pos + 1] == '*') then Push(ScanComment(s, st))
    else if c == '"' then Push(ScanString(s, st))
    else if c == '\'' then Push(ScanChar(s, st))
    else if IsDigit(c) then Push((ScanNumber(s, st).0, Some(ScanNumber(s, st).1)))
    else if IsWordStart(c) then Push((ScanIdentifier(s, st).0, Some(ScanIdentifier(s, st).1)))
    else if next && OperatorType(s[st.pos..st.pos + 2]).Some? then
      var t := Token(OperatorType(s[st.pos..st.pos + 2]).value, s[st.pos..st.pos + 2], st.line, st.column);
      AdvanceTo(s, st, st.pos + 2).(tokens := st.tokens + [t])
    else if SingleCharType(c).Some? then
      AdvanceTo(s, st, st.pos + 1).(tokens := st.tokens + [Token(SingleCharType(c).value, [c], st.line, st.column)])
    else
      AdvanceTo(s, st, st.pos + 1).(errors := st.errors + [LexicalError([c], st.line, st.column, UnknownChar)])
  }

  /** A scan that moved forward and produced a well-formed token there is a good step. */
  lemma PushToken(s: string, st: Scanner, r: (Scanner, Option<Token>))
    requires st.pos < r.0.pos <= |s| && r.0.tokens == st.tokens && r.0.errors == st.errors
    requires r.1.Some? && ScannedAt(s, st, r.1.value) && WellFormed(r.1.value)
    ensures StepOk(s, st, Push(r))
  {
  }

  /** A scan that moved forward and reported one error there is a good step. */
  lemma PushError(s: string, st: Scanner, r: (Scanner, Option<Token>))
    requires st.pos < r.0.pos <= |s| && r.0.tokens == st.tokens && r.1.None?
    requires |r.0.errors| == |st.errors| + 1 && r.0.errors[..|st.errors|] == st.errors
    requires ErrorAt(s, st, r.0.errors[|st.errors|])
    ensures StepOk(s, st, Push(r))
  {
    assert r.0.errors == st.errors + [r.0.errors[|st.errors|]];
  }

  /** A comment. */
  lemma StepComment(s: string, st: Scanner)
    requires st.pos + 1 < |s| && s[st.pos] == '/' && (s[st.pos + 1] == '/' || s[st.pos + 1] == '*')
    ensures StepOk(s, st, Step(s, st))
    ensures Tracks(s, st) ==> Tracks(s, Step(s, st))
  {
    assert Step(s, st) == Push(ScanComment(s, st));
    PushToken(s, st, ScanComment(s, st));
  }

  /** A string literal, or the error for an unterminated one. */
  lemma StepString(s: string, st: Scanner)
    requires st.pos < |s| && s[st.pos] == '"'
    ensures StepOk(s, st, Step(s, st))
    ensures Tracks(s, st) ==> Tracks(s, Step(s, st))
  {
    var r := ScanString(s, st);
    assert Step(s, st) == Push(r);
    if r.1.Some? { PushToken(s, st, r); } else { PushError(s, st, r); }
  }

  /** A character literal, or the error for a malformed one. */
  lemma StepChar(s: string, st: Scanner)
    requires st.pos < |s| && s[st.pos] == '\''
    ensures StepOk(s, st, Step(s, st))
    ensures Tracks(s, st) ==> Tracks(s, Step(s, st))
  {
    var r := ScanChar(s, st);
    assert Step(s, st) == Push(r);
    if r.1.Some? { PushToken(s, st, r); } else { PushError(s, st, r); }
  }

  /** A number or a word. */
  lemma StepWord(s: string, st: Scanner)
    requires st.pos < |s| && s[st.pos] != '/' && s[st.pos] != '"' && s[st.pos] != '\''
    requires IsDigit(s[st.pos]) || IsWordStart(s[st.pos])
    ensures StepOk(s, st, Step(s, st))
    ensures Tracks(s, st) ==> Tracks(s, Step(s, st))
  {
    if IsDigit(s[st.pos]) {
      PushToken(s, st, (ScanNumber(s, st).0, Some(ScanNumber(s, st).1)));
    } else {
      var r := ScanIdentifier(s, st);
      if r.1.lexeme in Keywords { KeywordKinds(r.1.lexeme); }
      PushToken(s, st, (r.0, Some(r.1)));
    }
  }

  /** The characters that are none of a comment, a quote, a digit or a word. */
  predicate SymbolAt(s: string, i: nat) {
    && i < |s| && s[i] != '"' && s[i] != '\''
    && !(s[i] == '/' && i + 1 < |s| && (s[i + 1] == '/' || s[i + 1] == '*'))
    && !IsDigit(s[i]) && !IsWordStart(s[i])
  }

  /** A token of a two-character operator's kind is well formed. */
  lemma OperatorWellFormed(v: string, line: nat, column: nat)
    requires OperatorType(v).Some?
    ensures WellFormed(Token(OperatorType(v).value, v, line, column))
  {
  }

  /** A token of a single character's kind is well formed. */
  lemma SingleWellFormed(c: char, line: nat, column: nat)
    requires SingleCharType(c).Some?
    ensures WellFormed(Token(SingleCharType(c).value, [c], line, column))
  {
  }

  /** A two-character operator. */
  lemma StepOperator(s: string, st: Scanner)
    requires SymbolAt(s, st.pos) && st.pos + 1 < |s| && OperatorType(s[st.pos..st.pos + 2]).Some?
    ensures StepOk(s, st, Step(s, st))
    ensures Tracks(s, st) ==> Tracks(s, Step(s, st))
  {
    var t := Token(OperatorType(s[st.pos..st.pos + 2]).value, s[st.pos..st.pos + 2], st.line, st.column);
    assert Step(s, st) == Push((AdvanceTo(s, st, st.pos + 2), Some(t)));
    OperatorWellFormed(s[st.pos..st.pos + 2], st.line, st.column);
    PushToken(s, st, (AdvanceTo(s, st, st.pos + 2), Some(t)));
  }

  /** A one-character operator or punctuation mark. */
  lemma StepSingle(s: string, st: Scanner)
    requires SymbolAt(s, st.pos) && !(st.pos + 1 < |s| && OperatorType(s[st.pos..st.pos + 2]).Some?)
    requires SingleCharType(s[st.pos]).Some?
    ensures StepOk(s, st, Step(s, st))
    ensures Tracks(s, st) ==> Tracks(s, Step(s, st))
  {
    var c := s[st.pos];
    assert s[st.pos..st.pos + 1] == [c];
    var t := Token(SingleCharType(c).value, [c], st.line, st.column);
    assert Step(s, st) == Push((AdvanceTo(s, st, st.pos + 1), Some(t)));
    SingleWellFormed(c, st.line, st.column);
    PushToken(s, st, (AdvanceTo(s, st, st.pos + 1), Some(t)));
  }

  /** Any other character is reported and skipped. */
  lemma StepUnknown(s: string, st: Scanner)
    requires SymbolAt(s, st.pos) && !(st.pos + 1 < |s| && OperatorType(s[st.pos..st.pos + 2]).Some?)
    requires SingleCharType(s[st.pos]).None?
    ensures StepOk(s, st, Step(s, st))
    ensures Tracks(s, st) ==> Tracks(s, Step(s, st))
  {
    var c := s[st.pos];
    var r := AdvanceTo(s, st, st.pos + 1);
    PushError(s, st, (r.(errors := st.errors + [LexicalError([c], st.line, st.column, UnknownChar)]), None));
  }

  /**
   * Every iteration moves forward and appends exactly one well-formed token scanned at its
   * position or one error reported there, and keeps the line and column in step.
   */
  lemma StepSpec(s: string, st: Scanner)
    requires st.pos < |s|
    ensures StepOk(s, st, Step(s, st))
    ensures Tracks(s, st) ==> Tracks(s, Step(s, st))
  {
    var c := s[st.pos];
    if c == '/' && st.pos + 1 < |s| && (s[st.pos + 1] == '/' || s[st.pos + 1] == '*') {
      StepComment(s, st);
    } else if c == '"' {
      StepString(s, st);
    } else if c == '\'' {
      StepChar(s, st);
    } else if IsDigit(c) || IsWordStart(c) {
      StepWord(s, st);
    } else if st.pos + 1 < |s| && OperatorType(s[st.pos..st.pos + 2]).Some? {
      StepOperator(s, st);
    } else if SingleCharType(c).Some? {
      StepSingle(s, st);
    } else {
      StepUnknown(s, st);
    }
  }

  predicate TokenAt(s: string, t: Token, k: nat) {
    k <= |s| && Spans(s, k, t.lexeme) && t.line == LineAt(s, k) && t.column == ColumnAt(s, k)
  }

  predicate ErrorAtPos(s: string, e: LexicalError, k: nat) {
    k < |s| && e.character == [s[k]] && e.line == LineAt(s, k) && e.column == ColumnAt(s, k)
  }

  /** The token is the text at some position, with that position's line and column. */
  predicate TokenPlaced(s: string, t: Token) {
    exists k :: 0 <= k <= |s| && TokenAt(s, t, k)
  }

  /** The error is for the character at some position, with that position's line and column. */
  predicate ErrorPlaced(s: string, e: LexicalError) {
    exists k :: 0 <= k < |s| && ErrorAtPos(s, e, k)
  }

  /** Every token is the text at its line and column. */
  predicate TokensLocated(s: string, ts: seq<Token>) {
    forall i :: 0 <= i < |ts| ==> TokenPlaced(s, ts[i])
  }

  /** Every error is at its character. */
  predicate ErrorsLocated(s: string, es: seq<LexicalError>) {
    forall i :: 0 <= i < |es| ==> ErrorPlaced(s, es[i])
  }

  lemma AppendToken(s: string, ts: seq<Token>, t: Token, k: nat)
    requires TokensLocated(s, ts) && k <= |s| && TokenAt(s, t, k)
    ensures TokensLocated(s, ts + [t])
  {
    var u := ts + [t];
    forall i | 0 <= i < |u| ensures TokenPlaced(s, u[i]) {
      if i < |ts| {
        assert u[i] == ts[i];
      } else {
        assert TokenAt(s, u[i], k);
      }
    }
  }

  lemma AppendError(s: string, es: seq<LexicalError>, e: LexicalError, k: nat)
    requires ErrorsLocated(s, es) && k < |s| && ErrorAtPos(s, e, k)
    ensures ErrorsLocated(s, es + [e])
  {
    var u := es + [e];
    forall i | 0 <= i < |u| ensures ErrorPlaced(s, u[i]) {
      if i < |es| {
        assert u[i] == es[i];
      } else {
        assert ErrorAtPos(s, u[i], k);
      }
    }
  }

  /** Every token is the text at its line and column, and every error is at its character. */
  predicate Located(s: string, ts: seq<Token>, es: seq<LexicalError>) {
    TokensLocated(s, ts) && ErrorsLocated(s, es)
  }

  /** A step keeps every token and error located. */
  lemma StepLocated(s: string, st: Scanner, r: Scanner)
    requires st.pos < |s| && StepOk(s, st, r)
    ensures Tracks(s, st) && Located(s, st.tokens, st.errors) ==> Located(s, r.tokens, r.errors)
  {
    if Tracks(s, st) && Located(s, st.tokens, st.errors) {
      if NewToken(s, st, r) {
        AppendToken(s, st.tokens, r.tokens[|st.tokens|], st.pos);
      } else {
        AppendError(s, st.errors, r.errors[|st.errors|], st.pos);
      }
    }
  }

  /** The `while` loop of `analyze`: white space, then one step, until the end of the text. */
  function Loop(s: string, st: Scanner): (r: Scanner)
    requires st.pos <= |s|
    ensures r.pos == |s| && st.tokens <= r.tokens && st.errors <= r.errors
    ensures |r.tokens| + |r.errors| <= |st.tokens| + |st.errors| + (|s| - st.pos)
    ensures (forall i :: 0 <= i < |st.tokens| ==> WellFormed(st.tokens[i])) ==>
      forall i :: 0 <= i < |r.tokens| ==> WellFormed(r.tokens[i])
    decreases |s| - st.pos
  {
    if st.pos >= |s| then st
    else
      var w := AdvanceTo(s, st, SpaceEnd(s, st.pos));
      if w.pos >= |s| then w
      else
        StepSpec(s, w);
        Loop(s, Step(s, w))
  }

  /** The loop keeps the line and column in step and every token and error located. */
  lemma {:induction false} LoopLocated(s: string, st: Scanner)
    requires st.pos <= |s|
    ensures Tracks(s, st) && Located(s, st.tokens, st.errors) ==>
      Tracks(s, Loop(s, st)) && Located(s, Loop(s, st).tokens, Loop(s, st).errors)
    decreases |s| - st.pos
  {
    if st.pos < |s| {
      var w := AdvanceTo(s, st, SpaceEnd(s, st.pos));
      if w.pos < |s| {
        StepSpec(s, w);
        StepLocated(s, w, Step(s, w));
        LoopLocated(s, Step(s, w));
      }
    }
  }

  /** `analyze`: the tokens and the errors of the whole text. */
  function Analyze(s: string): (r: (seq<Token>, seq<LexicalError>))
    ensures |r.0| + |r.1| <= |s|
    ensures forall i :: 0 <= i < |r.0| ==> WellFormed(r.0[i])
    ensures Located(s, r.0, r.1)
  {
    assert Tracks(s, Start) by { assert s[..0] == []; }
    LoopLocated(s, Start);
    var st := Loop(s, Start);
    (st.tokens, st.errors)
  }
}
