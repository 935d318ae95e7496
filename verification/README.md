# A verified model of a C#-subset to TypeScript transpiler

The system takes a small subset of C# and turns it into TypeScript: one
`using System;`, one `public class` with a `static void Main(string[] args)`,
and inside `Main` declarations, assignments, `Console.WriteLine`, `if`/`else`
and `for` loops over integer, decimal, string, char and boolean values.  The
repository holds two independent pipelines, each a chain of pure
text → tokens → tree → text stages, plus copies and a variant.  This project
restates each stage as pure Dafny functions over `seq<char>` and `seq<Token>`
and proves what the stages promise.

* **Pipeline A, AST based.**
  * The scanner `AnalizadorLexico` is module `Lexico` in `lexico.dfy`.
  * The recursive-descent parser `AnalizadorSintactico` is module
    `Sintactico` in `sintactico.dfy`.  It recovers from errors by skipping one
    token and builds the tree of `ast.dfy` (module `Ast`).
  * The emitter `Transpilador` is module `Transpilador` in `transpilador.dfy`.
  * The symbol table `TablaSimbolos` is module `Simbolos`.
  * The symbol preview of the server-side editor is module `Editor`.
  * The browser file `public/editor.js` repeats the scanner and the parser word
    for word, so they are modelled once.  Its emitter differs from the server
    one only in the `for` initialiser, so `Transpilador` takes a
    `Copia = Servidor | Navegador` parameter.  Its `Map`-based symbol preview
    and the stage short-circuit of `analizarCodigo` are module `EditorJs`.
* **Pipeline B, single pass.**
  * The scanner is module `LexicalAnalyzer`.
  * The parser is module `SyntaxAnalyzer`.  It emits TypeScript, records
    symbols and collects console output while it parses, with no tree.  Its
    whole state is one `Parser` record that every production threads through.
* **The variant parser** in `src/analizdor/sintactico.ts` is module
  `SintacticoVariante`.  It has no comment filter, no recovery, and
  look-ahead dispatch.  Its `parseFor` expects a second `;` after the
  initialiser (see Findings), so every production that can reach a `for`
  takes a `Lectura = ComoEscrita | Corregida`: the code as written, or the
  reading where the initialiser's own `;` is the only one.
* `common.dfy` (module `Common`) holds `Option`, the JavaScript `trim`
  family, `join`, and a character count.

## How the model is built

* **Scanners** are recursive functions over the text with an explicit
  cursor.  They terminate because every iteration moves the cursor forward.
* **Thrown exceptions** become result values:
  * `Sintactico` uses `Parse<T> = Ok(value, st) | Fail(st)`.  The state keeps
    the error list, so a throw keeps the errors recorded before it.
  * `SintacticoVariante` uses `Intento<T> = Ok(value, pos) | Fail(error)`.
    The error is absent when the source throws without recording one.
* **Integer width:** positions, lines and columns are unbounded; the source
  never wraps them.
* **Numbers** keep their lexeme as text, in every stage.
* **Message texts** of errors become constructors such as
  `CaracterDesconocido` and `UnterminatedString`, one per text.

## Behaviour worth knowing

Each of these is modelled as the code does it.

* **Recovery can swallow a closing brace.**  A statement that throws at a `}`
  has that `}` skipped by recovery.  The enclosing block then closes at the
  next `}`, and the class can run out of tokens and throw, which nulls the
  tree (`SintacticoProps.RecuperacionComeLlave`, `SintacticoProps.ClaseSinCierre`).
* **An unclosed block comment leaves its last character out.**  The scanner
  reports the error.  Its loop stops one character before the end, so the
  last character is left out of the comment and scanned as a token
  (`LexicoProps.ComentarioSinCerrar`).
* **The emitter cannot put parentheses back.**  `parseFactor` builds no node
  for `( … )`; the grouping lives only in the shape of the tree.  The tree's
  leaves and operators, left to right, are the tokens read less the
  parentheses (`ExpresionProps.ExpresionPlano`), and `transpilarExpresion`
  prints them with no parentheses, so `(a + b) * c` comes out as
  `a + b * c`.

## Model

| member | source | states |
|---|---|---|
| Common.TrimEspec | src/analizador/lexico.ts:238 | the trimmed comment text neither starts nor ends with white space, is made only of input characters, and equals the input when it holds no white space |
| Common.TrimIdempotente | public/editor.js:1113 | trimming an already trimmed text changes nothing |
| Common.JoinConcat | src/traduccion/transpilador.ts:66-80 | joining two non-empty lists is joining each and putting one separator between them, the law the comma-joined declaration list relies on |
| Lexico.TipoIdentificador | src/analizador/lexico.ts:16-36 | a word is `IDENTIFICADOR` exactly when it is not a key of the reserved-word table, and otherwise has that entry's kind |
| Lexico.Avanzar | src/analizador/lexico.ts:312-316 | one character forward on the same line: the position and the column both go up by one, and nothing else changes |
| Lexico.FinNumero | src/analizador/lexico.ts:96-101 | the number loop stops at the first character that is neither a digit nor a first dot; the run holds at most one dot, and the flag says whether it holds one |
| Lexico.NumeroEspec | src/analizador/lexico.ts:93-117 | a number is the longest run of digits with at most one dot, given at its first character; it is `DECIMAL` exactly when the run holds the dot |
| Lexico.IdentificadorEspec | src/analizador/lexico.ts:118-139 | a word is the longest `[a-zA-Z0-9_]` run from a letter, given at its first character and typed by exact lookup in the reserved-word table |
| Lexico.CadenaEspec | src/analizador/lexico.ts:140-171 | a token exists exactly when a closing quote follows; it holds the text between the quotes, on the line where the string ends, at the opening column; otherwise the rest of the text is consumed and there is exactly one error and no token |
| Lexico.CaracterEspec | src/analizador/lexico.ts:172-199 | `'x'` and `''` give a `CARACTER` token of at most one character; anything else gives exactly one error at the opening quote and no token |
| Lexico.ComentarioLineaEspec | src/analizador/lexico.ts:200-218 | a line comment stops before the next line break, never on it, and holds the trimmed text after `//` |
| Lexico.ComentarioBloqueEspec | src/analizador/lexico.ts:219-261 | a token exists exactly when some `*/` follows; it stops at the first one and holds the trimmed text; otherwise there is one error at the opening line and column, and no token |
| Lexico.OperadorEspec | src/analizador/lexico.ts:262-288 | the scanner takes two characters exactly when they form one of the six double operators; any other operator character, a lone `!` included, is a one-character `OPERADOR` |
| Lexico.AnalizarSimbolo | src/analizador/lexico.ts:289-311 | one punctuation token for exactly the current character, of that character's kind |
| Lexico.PasoSalto | src/analizador/lexico.ts:56-59 | a line break moves to the next line with the column set to 1 and then advanced, so the column is 2 after it |
| Lexico.PasoDesconocido | src/analizador/lexico.ts:76-83 | a character outside the alphabet gives one error with that character at the current line and column, and scanning resumes at the next character |
| Lexico.Bucle | src/analizador/lexico.ts:51-85 | the loop reaches the end of the text, only appends to the tokens and errors, reports at most one item per character, and keeps every token well formed |
| Lexico.Analizar | src/analizador/lexico.ts:44-92 | every token is well formed for its kind, and there are never more tokens and errors together than characters |
| LexicoProps.TipoIdentificadorComoEscrito | src/analizador/lexico.ts:131 | the lookup as written, on a plain JavaScript object: the seven inherited `Object.prototype` names get a function, and every other word gets the own-key result |
| LexicoProps.ConstructorRecibeFuncionComoTipo | src/analizador/lexico.ts:131 | `constructor` is shaped like an identifier, yet the lookup as written gives it a function where the intended lookup gives `IDENTIFICADOR` |
| LexicoProps.LookupCorregidoDifiereSoloEnHeredadas | src/analizador/lexico.ts:16-36 | the corrected lookup and the lookup as written differ exactly on the inherited names, and there the corrected one gives `IDENTIFICADOR` |
| LexicoProps.BucleSoloDesconocidos | src/analizador/lexico.ts:76-83 | on a run of unrecognised characters the loop adds no token and exactly one error per character, at consecutive columns |
| LexicoProps.TextoDesconocido | src/analizador/lexico.ts:76-83 | a text of unrecognised characters gives no token and one error per character, the k-th at line 1, column k + 1 |
| LexicoProps.ConsoleNuncaEsIdentificador | src/analizador/lexico.ts:34 | no scanned token is an `IDENTIFICADOR` spelled `Console`, because that word is reserved |
| LexicoProps.NumeroConDosPuntos | src/analizador/lexico.ts:93-117 | digit, dot, digit, dot, digit (like `1.2.3`) scans as `DECIMAL` of the first three characters, then `PUNTO`, then `ENTERO` |
| LexicoProps.NumeroConPuntoFinal | src/analizador/lexico.ts:93-117 | a digit and a trailing dot (like `1.`) is one `DECIMAL` |
| LexicoProps.ColumnaTrasSalto | src/analizador/lexico.ts:56-59 | in `a\nb` the second letter is at line 2, column 2 |
| LexicoProps.RetornoYSaltoSonDosLineas | src/analizador/lexico.ts:329-331 | `\r\n` counts as two line breaks, so the letter after it is at line 3 |
| LexicoProps.ComentarioSinCerrar | src/analizador/lexico.ts:219-261 | an unclosed block comment gives one error at the opening position, and its last character is left out of the comment and scanned as a token |
| LexicoProps.CaracterVacio | src/analizador/lexico.ts:172-199 | `''` is an empty `CARACTER` token and no error |
| LexicoProps.OperadorSolo | src/analizador/lexico.ts:262-288 | a lone operator character, `!` included, is a one-character `OPERADOR` |
| Sintactico.Filtrar | src/analizador/sintactico.ts:13-16 | the filter keeps only tokens of the input that are not comments, and a comment-free list is kept as it is |
| Sintactico.Consumir | src/analizador/sintactico.ts:435-482 | succeeds exactly on a token of an expected kind, returning that token one position further on; on a failure the position stays and exactly one error is appended |
| Sintactico.ConsumirEspec | src/analizador/sintactico.ts:435-482 | the appended error names the found token's line, column and kind; at the end of input it is an `EOF` error placed at the last token, or at line 1, column 1 with no tokens |
| Sintactico.Atomo | src/analizador/sintactico.ts:382-434 | a token stands for an atom exactly when it is an identifier or a literal |
| Sintactico.Factor | src/analizador/sintactico.ts:382-434 | a factor is arithmetic; past the end, or at a token that is neither `(` nor an atom, it throws and records nothing; an atom is read as one token |
| Sintactico.Expresion | src/analizador/sintactico.ts:319-339 | the cursor only moves forward, a success records no error, and the tree is well formed: comparisons only at the top, over arithmetic operands; its leaves in order and its precedence, for every input, are `ExpresionProps.ExpresionPlano` and `ExpresionProps.ExpresionForma` |
| Sintactico.IdAsig | src/analizador/sintactico.ts:172-189 | the variable is named by the current token, and it has an initial expression exactly when an `=` operator follows the name |
| Sintactico.ListaId | src/analizador/sintactico.ts:160-171 | a declaration list holds at least one variable |
| Sintactico.Declaracion | src/analizador/sintactico.ts:148-159 | a declaration carries the type token's kind, which is a type keyword, and at least one variable |
| Sintactico.Asignacion | src/analizador/sintactico.ts:190-207 | an assignment is to the current identifier; a token other than an `=` operator after the name throws without recording an error |
| Sintactico.InicioPara | src/analizador/sintactico.ts:265-280 | the `for` initialiser is a `DECLARACION_FOR` exactly when it starts with a type keyword, and is never an ordinary statement |
| Sintactico.ListaInstrucciones | src/analizador/sintactico.ts:96-112 | the loop stops at `}` or the end, returns nothing when it starts there, keeps at most one statement per remaining token, and builds only statements of the parser's shapes |
| Sintactico.Instruccion | src/analizador/sintactico.ts:113-139 | past the end, and at a token that starts no statement, it throws and records nothing; a print is only ever built from an identifier spelled `Console` |
| Sintactico.Sino | src/analizador/sintactico.ts:232-244 | there is an `else` block exactly when `ELSE` follows the first block; without one, nothing is consumed |
| Sintactico.Actualizacion | src/analizador/sintactico.ts:286-300 | the update is a name and `++` or `--`, read as two tokens, and counts up exactly for `++`; another operator throws without recording an error |
| Sintactico.CabeceraPara | src/analizador/sintactico.ts:253-318 | a parsed `for` header starts at `FOR`, and its initialiser is never an ordinary statement; with nothing after `(`, it throws without recording an error |
| Sintactico.Clase | src/analizador/sintactico.ts:60-74 | a parsed class takes at least sixteen tokens and is named by the identifier after `class`; a failed one has recorded an error |
| Sintactico.Programa | src/analizador/sintactico.ts:39-49 | a parsed program starts with `using` and takes at least nineteen tokens; a failure has recorded at least one more error, since every throw that reaches it comes from `consumir`, which records its error first |
| Sintactico.Analizar | src/analizador/sintactico.ts:20-38 | a tree needs at least nineteen non-comment tokens, and no tree always comes with at least one error: the statement loop catches every other throw |
| SintacticoProps.FiltrarConcat | src/analizador/sintactico.ts:13-16 | the filter commutes with concatenation, so it keeps the other tokens in their order |
| SintacticoProps.FiltrarIdempotente | src/analizador/sintactico.ts:13-16 | filtering twice is filtering once |
| SintacticoProps.ComentariosIgnorados | src/analizador/sintactico.ts:13-16 | the result of the parser depends only on the tokens that are not comments |
| SintacticoProps.ListaPasoOk | src/analizador/sintactico.ts:96-112 | a statement that parses is kept, in order, and the loop goes on after it |
| SintacticoProps.ListaPasoSalta | src/analizador/sintactico.ts:96-112 | a statement that throws is dropped, and exactly one token is skipped at the position where it threw |
| SintacticoProps.ConsolaSeSalta | src/analizador/sintactico.ts:135-137 | a `CONSOLE` token starts no statement: it throws without an error, and recovery skips it |
| SintacticoProps.ImprimirDesaparece | src/analizador/sintactico.ts:96-147 | `Console.WriteLine("x");`, tokenised by the scanner, disappears from a statement list with no node and no error |
| SintacticoProps.RecuperacionComeLlave | src/analizador/sintactico.ts:96-112 | in `{ x } }` recovery skips the first `}`, and the block closes at the second one |
| SintacticoProps.ClaseSinCierre | src/analizador/sintactico.ts:60-74 | when the `Main` block ends at the end of input, the class throws with an `EOF` error, so the tree is null |
| SintacticoProps.SinUsingArbolNulo | src/analizador/sintactico.ts:20-38 | without `using` first there is no tree and exactly one error, naming the first token |
| SintacticoProps.BlockUsingAcepta | src/analizador/sintactico.ts:50-59 | the using block succeeds exactly on `using System ;` |
| SintacticoProps.EncabezadoMainAcepta | src/analizador/sintactico.ts:75-95 | the `Main` header succeeds exactly on `static void Main ( string [ ] id )` |
| SintacticoProps.TextoNuncaImprime | src/analizador/sintactico.ts:140-147 | a tree the parser builds from scanner output never holds a print statement, and every `for` initialiser in it is a `*_FOR` node |
| ExpresionProps.PrecedenciaMultiplicativa | src/analizador/sintactico.ts:340-381 | `a + b * c` parses as `a + (b * c)` |
| ExpresionProps.AsociatividadIzquierda | src/analizador/sintactico.ts:340-360 | `a - b - c` parses as `(a - b) - c` |
| ExpresionProps.CadenaRelacional | src/analizador/sintactico.ts:319-339 | `a < b == c` parses as `(a < b) == c`: comparisons chain to the left at the top |
| ExpresionProps.ParentesisSinNodo | src/analizador/sintactico.ts:387-391 | a parenthesised factor is exactly the additive expression inside it, with no node of its own |
| ExpresionProps.ParentesisSinComparacion | src/analizador/sintactico.ts:387-391 | `( a < b )` fails: the factor expects `)` at the comparison and records that error |
| ExpresionProps.FactorPlano | src/analizador/sintactico.ts:382-433 | a factor's leaves, left to right, are the tokens it read, parentheses dropped |
| ExpresionProps.TerminoPlano | src/analizador/sintactico.ts:361-380 | the same for a term |
| ExpresionProps.RestoTerminoPlano | src/analizador/sintactico.ts:364-377 | the `*`/`/` loop appends the operators and factors it reads, in order, to the tree built so far |
| ExpresionProps.TerminoRelacionalPlano | src/analizador/sintactico.ts:340-359 | the same for an additive expression |
| ExpresionProps.RestoAditivoPlano | src/analizador/sintactico.ts:343-356 | the `+`/`-` loop appends the operators and terms it reads, in order, to the tree built so far |
| ExpresionProps.RestoRelacionalPlano | src/analizador/sintactico.ts:322-335 | the comparison loop appends the operators and operands it reads, in order, to the tree built so far |
| ExpresionProps.ExpresionPlano | src/analizador/sintactico.ts:319-433 | a parsed expression loses and reorders nothing: the tree's leaves and operators in order (what the emitter prints) are exactly the tokens read, less the parentheses |
| ExpresionProps.TerminoForma | src/analizador/sintactico.ts:361-380 | with no `(` read, a term is a product: a `*`/`/` node has a product on its left and a leaf on its right |
| ExpresionProps.RestoTerminoForma | src/analizador/sintactico.ts:364-377 | with no `(` read, the `*`/`/` loop keeps a product a product |
| ExpresionProps.TerminoRelacionalForma | src/analizador/sintactico.ts:340-359 | with no `(` read, an additive expression is a sum: a `+`/`-` node has a sum on its left and a product on its right |
| ExpresionProps.RestoAditivoForma | src/analizador/sintactico.ts:343-356 | with no `(` read, the `+`/`-` loop keeps a sum a sum |
| ExpresionProps.RestoRelacionalForma | src/analizador/sintactico.ts:322-335 | with no `(` read, the comparison loop keeps a left-leaning chain of comparisons over sums |
| ExpresionProps.ExpresionForma | src/analizador/sintactico.ts:319-380 | with no `(` read, the tree follows the grammar comparison-chain / sum / product: `*` and `/` bind tighter than `+` and `-`, which bind tighter than comparisons, all leaning left |
| ExpresionProps.InicioAceptaCualquierOperador | src/analizador/sintactico.ts:265-280 | the `for` initialiser checks only the kind of the token in the `=` position, so `int i + 0` is a `DECLARACION_FOR` |
| Transpilador.TipoTs | src/traduccion/transpilador.ts:48-64 | `number` exactly for `int` and `float`, `string` exactly for `string` and `char`, `boolean` exactly for `bool`, and `any` exactly for a kind that is not a type keyword |
| Transpilador.DeclaracionTs | src/traduccion/transpilador.ts:66-80 | a declaration line starts with `let ` and ends with `;` |
| Transpilador.Instruccion | src/traduccion/transpilador.ts:28-44 | every statement's text ends in a line break after a `;` or a `}` |
| Transpilador.InicioTs | src/traduccion/transpilador.ts:111-170 | the server copy writes nothing for the `*_FOR` initialisers the parser builds, and the browser copy writes nothing for ordinary statements |
| Transpilador.TranspilarNavegador | public/editor.js:814-828 | a missing tree gives the empty text |
| TranspiladorProps.ExpresionEsInorden | src/traduccion/transpilador.ts:171-195 | an expression prints as its leaves and operators in order, separated by single spaces, with no parentheses added |
| TranspiladorProps.PrecedenciaPerdida | src/traduccion/transpilador.ts:175-178 | two different trees, `(a o b) p c` and `a o (b p c)`, print the same text |
| TranspiladorProps.DeclaracionDosVariables | src/traduccion/transpilador.ts:66-80 | `int a = 10, b = 5;` becomes `let a: number = 10, b: number = 5;` |
| TranspiladorProps.DeclaracionSinValor | src/traduccion/transpilador.ts:66-80 | a variable with no initialiser gets no value in the output, whatever its type |
| TranspiladorProps.ListaConcat | src/traduccion/transpilador.ts:14-27 | the text of a statement list is the texts of its parts, in order |
| TranspiladorProps.SangriaSoloPrimeraLinea | src/traduccion/transpilador.ts:91-110 | inside an `if`, only the first line of a nested statement is indented |
| TranspiladorProps.LineasEspec | src/traduccion/transpilador.ts:28-170 | the number of line breaks in a statement's text is one per statement plus one per block header and `else` |
| TranspiladorProps.ServidorIgnoraInicios | src/traduccion/transpilador.ts:111-170 | the server copy prints trees that differ only in their parsed `for` initialisers as the same text |
| TranspiladorProps.ParaNavegador | public/editor.js:912-959 | the browser copy writes `let i: number = 0` for the initialiser of `for (int i = 0; …)` |
| TranspiladorProps.ParaServidor | src/traduccion/transpilador.ts:111-170 | the server copy writes `for (; c; i++) {` for the same loop |
| Simbolos.Nueva | src/modelos/simbolos.ts:12-15 | a new table holds no symbols and is in the global scope |
| Simbolos.ValorPorDefecto | src/modelos/simbolos.ts:58-68 | the default value is `null` exactly for `any` |
| Simbolos.Indice | src/modelos/simbolos.ts:17-41 | the position of the first symbol with the name in the scope, and none exactly when no symbol matches |
| Simbolos.Agregar | src/modelos/simbolos.ts:17-30 | nothing changes when the name is already in the current scope; otherwise exactly one symbol is appended, with the given value or the type's default |
| Simbolos.Actualizar | src/modelos/simbolos.ts:31-41 | true exactly when the name is in the current scope; then only that symbol's value changes |
| Simbolos.Buscar | src/modelos/simbolos.ts:42-45 | found exactly when some symbol of the current scope has the name, and then it is such a symbol |
| Simbolos.EntrarAmbito | src/modelos/simbolos.ts:46-49 | the scope name is replaced and the symbols are kept |
| Simbolos.SalirAmbito | src/modelos/simbolos.ts:50-53 | the scope goes back to `global` whatever was entered, and the symbols are kept |
| SimbolosProps.AgregarPreservaUnicos | src/modelos/simbolos.ts:17-30 | `agregar` keeps at most one symbol per name and scope |
| SimbolosProps.ActualizarPreservaUnicos | src/modelos/simbolos.ts:31-41 | `actualizar` keeps at most one symbol per name and scope |
| SimbolosProps.BuscarTrasAgregar | src/modelos/simbolos.ts:17-45 | after `agregar` the name is found: the earlier symbol if there was one, otherwise the new one |
| SimbolosProps.AgregarNoTocaOtros | src/modelos/simbolos.ts:17-45 | `agregar` of one name leaves the lookup of every other name as it was |
| SimbolosProps.BuscarTrasActualizar | src/modelos/simbolos.ts:31-45 | after `actualizar` the name is found with the new value, or is still missing |
| SimbolosProps.ActualizarNoTocaOtros | src/modelos/simbolos.ts:31-45 | `actualizar` of one name leaves the lookup of every other name as it was |
| SimbolosProps.AmbitoAislado | src/modelos/simbolos.ts:42-53 | a symbol added in another scope is not found once the table is back in `global` |
| SimbolosProps.NadaSeBorra | src/modelos/simbolos.ts:54-57 | no operation removes a symbol: `agregar` extends the list and `actualizar` keeps its names |
| Editor.ConvertirTipo | src/interfaz/editor.ts:168-182 | the preview's type for a kind is the type the emitter writes for it |
| Editor.Evaluar | src/interfaz/editor.ts:183-207 | a missing expression evaluates to `null` |
| EditorProps.TablaConcat | src/interfaz/editor.ts:140-167 | walking two statement lists is walking the first and then the second |
| EditorProps.SoloNivelSuperior | src/interfaz/editor.ts:148-165 | only top-level declarations and assignments affect the table |
| EditorProps.TablaUnicos | src/interfaz/editor.ts:140-167 | the preview keeps at most one symbol per name and scope |
| EditorProps.TablaNombres | src/interfaz/editor.ts:140-167 | the preview's names are the starting names plus the top-level declared ones |
| EditorProps.PrimeraDeclaracionGana | src/interfaz/editor.ts:153 | a symbol in the table stays and keeps its type: a redeclaration, even with another type, is ignored |
| EditorProps.SinValorPorDefecto | src/interfaz/editor.ts:153 | a variable declared with no value gets its type's default |
| EditorProps.AsignacionIgnorada | src/interfaz/editor.ts:156-163 | an assignment to an undeclared name changes nothing |
| EditorProps.AsignacionReemplaza | src/interfaz/editor.ts:156-163 | an assignment to a known name replaces only its value, by the evaluated expression |
| EditorProps.EvaluarComoEmisor | src/interfaz/editor.ts:196-205 | an arithmetic expression with no identifier previews as the emitted text, fully parenthesised: removing the parentheses gives exactly the emitter's text |
| EditorJs.EvaluarExpr | public/editor.js:1243-1266 | an identifier gives its stored value or `'undefined'`, a comparison `'undefined'`, and arithmetic a parenthesised text |
| EditorJs.EntradaDe | public/editor.js:1207-1215 | a declared variable's entry has the converted type, and `'undefined'` when it has no value |
| EditorJs.Visitar | public/editor.js:1203-1227 | a declaration adds exactly its names; an assignment to a known name replaces only that entry's value, and one to an unknown name does nothing; other statements change nothing |
| EditorJs.ActualizarMapa | public/editor.js:1203-1227 | the map's names are the starting names plus the top-level declared ones |
| EditorJs.AnalizarCodigo | public/editor.js:1112-1175 | nothing is analysed exactly when the trimmed code is empty; otherwise the stages run on the trimmed code |
| EditorJs.Etapas | public/editor.js:1125-1137 | the scanner's errors are shown exactly when there are any; otherwise the parser stage runs on its tokens |
| EditorJs.Arbol | public/editor.js:1145-1165 | the parser's errors are shown exactly when there are any; the emitter and the preview run exactly when there are none and there is a tree |
| EditorJsProps.MapaConcat | public/editor.js:1203-1227 | walking two statement lists is walking the first and then the second |
| EditorJsProps.UltimaDeclaracionGana | public/editor.js:1207-1215 | a redeclaration overwrites: the entry has the last declaration's type and value |
| EditorJsProps.AsignacionIgnorada | public/editor.js:1216-1222 | an assignment to an undeclared name changes nothing |
| EditorJsProps.AsignacionReemplaza | public/editor.js:1216-1222 | an assignment to a known name replaces its value and keeps its type |
| EditorJsProps.MismosNombres | public/editor.js:1203-1227 | started empty, the server preview and the browser preview end with the same names |
| EditorJsProps.MismaEvaluacion | public/editor.js:1243-1266 | on an expression with no identifier and no comparison the two previews show the same value |
| EditorJsProps.RedeclaracionDifiere | public/editor.js:1207-1215 | for `int x; string x;` the server preview keeps the first declaration and the browser preview the last |
| EditorJsProps.AnalizarTrasRecortar | public/editor.js:1113 | white space around the code changes nothing the page shows |
| LexicalAnalyzer.WordKind | src/lexer/LexicalAnalyzer.ts:14-34 | a word is `IDENTIFIER` exactly when it is not a keyword, and otherwise has its keyword's kind |
| LexicalAnalyzer.Advance | src/lexer/LexicalAnalyzer.ts:64-74 | after `\n` the line goes up and the column restarts at 1; after any other character the column goes up; at the end nothing changes |
| LexicalAnalyzer.AdvanceTracks | src/lexer/LexicalAnalyzer.ts:64-74 | advancing keeps the line and column equal to those of the position in the text |
| LexicalAnalyzer.SpaceEnd | src/lexer/LexicalAnalyzer.ts:79-83 | white space is skipped up to the first character outside `\s` |
| LexicalAnalyzer.ScanString | src/lexer/LexicalAnalyzer.ts:88-107 | a token exists exactly when a closing quote follows, and keeps both quotes; otherwise the rest of the text is consumed and there is one error at the opening quote |
| LexicalAnalyzer.ScanChar | src/lexer/LexicalAnalyzer.ts:112-131 | a token exists exactly when there is one non-quote character between quotes; otherwise there is one error at the opening quote and the characters read are not given back |
| LexicalAnalyzer.NumberLexeme | src/lexer/LexicalAnalyzer.ts:136-165 | the number is `FLOAT` exactly when a point was read; a float is a decimal with one point and an optional `f`; an integer stops before anything that is neither a digit nor a point |
| LexicalAnalyzer.ScanNumber | src/lexer/LexicalAnalyzer.ts:136-165 | a number token is `FLOAT` exactly when its lexeme holds the point, and has the shape of its kind |
| LexicalAnalyzer.ScanIdentifier | src/lexer/LexicalAnalyzer.ts:170-182 | a word is the longest `[a-zA-Z0-9_]` run, typed by the keyword table |
| LexicalAnalyzer.ScanComment | src/lexer/LexicalAnalyzer.ts:187-222 | a token exists exactly at `//` or `/*`; a line comment stops before the line break |
| LexicalAnalyzer.StepSpec | src/lexer/LexicalAnalyzer.ts:242-326 | every iteration moves forward and appends exactly one well-formed token or one error, scanned or reported at its own position |
| LexicalAnalyzer.Loop | src/lexer/LexicalAnalyzer.ts:242-326 | the loop reaches the end, only appends, and reports at most one item per character |
| LexicalAnalyzer.LoopLocated | src/lexer/LexicalAnalyzer.ts:249-250 | every token and error records the line and column of its first character |
| LexicalAnalyzer.Analyze | src/lexer/LexicalAnalyzer.ts:242-326 | every token is well formed and located at its first character, and there are never more items than characters |
| LexicalAnalyzerProps.IntegerThenIdentifier | src/lexer/LexicalAnalyzer.ts:136-165 | a digit followed by a letter, `5f` among them, is an `INTEGER` of the digit and then an identifier of the letter: the `f` suffix is only taken after a decimal point |
| LexicalAnalyzerProps.SingleWord | src/lexer/LexicalAnalyzer.ts:170-182 | a text that is one word is one token, whose kind is the keyword table's entry for exactly that word, or `IDENTIFIER` |
| LexicalAnalyzerProps.SingleOperator | src/lexer/LexicalAnalyzer.ts:286-322 | a text that is one two-character operator is that one token, even where its first character is a token of its own |
| LexicalAnalyzerProps.UnclosedBlockComment | src/lexer/LexicalAnalyzer.ts:187-222 | an unclosed block comment is one comment token, the whole text, and no error |
| LexicalAnalyzerProps.UnclosedString | src/lexer/LexicalAnalyzer.ts:88-107 | an unclosed string is one error at line 1, column 1, and no token |
| LexicalAnalyzerProps.TrueWord | src/lexer/LexicalAnalyzer.ts:14-34 | `true` has its own kind |
| LexicalAnalyzerProps.CapitalTrueIsName | src/lexer/LexicalAnalyzer.ts:14-34 | keyword lookup is exact, so `True` is a name |
| LexicalAnalyzerProps.UnderscoreName | src/lexer/LexicalAnalyzer.ts:170-182 | a name may start with `_` |
| LexicalAnalyzerProps.LoneBang | src/lexer/LexicalAnalyzer.ts:286-322 | a lone `!` is one unknown-character error, and scanning goes on past it |
| LexicalAnalyzerProps.BangEquals | src/lexer/LexicalAnalyzer.ts:227-237 | `!=` is one token |
| LexicalAnalyzerProps.CharNoRewind | src/lexer/LexicalAnalyzer.ts:112-131 | a quote and one character with no closing quote: one error, and scanning resumes after that character |
| LexicalAnalyzerProps.EmptyChar | src/lexer/LexicalAnalyzer.ts:112-131 | `''` is one error, and the second quote starts the next literal |
| LexicalAnalyzerProps.OperatorPriority | src/lexer/LexicalAnalyzer.ts:286-322 | where a two-character operator begins, it wins over the one-character token |
| LexicalAnalyzerProps.BlankText | src/lexer/LexicalAnalyzer.ts:79-83 | a text of white space only, `\r` included, gives nothing |
| SyntaxAnalyzer.RemoveFirstF | src/parser/SyntaxAnalyzer.ts:505-543 | removes one character exactly when the text holds an `f`, and otherwise leaves it as it is |
| SyntaxAnalyzer.Factor | src/parser/SyntaxAnalyzer.ts:505-543 | a factor never reads a comparison; one that consumes nothing records exactly one error and gives `''` |
| SyntaxAnalyzer.Expresion | src/parser/SyntaxAnalyzer.ts:428-458 | the tokens an expression consumes hold at most one relational operator |
| SyntaxAnalyzer.ExpresionRenders | src/parser/SyntaxAnalyzer.ts:428-543 | with no error, an expression's text is the pieces of exactly the tokens it consumed: operators spaced, parentheses kept, operands rewritten one by one |
| SyntaxAnalyzer.Expect | src/parser/SyntaxAnalyzer.ts:50-62 | a match advances one; a mismatch records exactly one error and does not advance; nothing else changes |
| SyntaxAnalyzer.UpdateFirst | src/parser/SyntaxAnalyzer.ts:265-283 | an assignment changes no symbol's name |
| SyntaxAnalyzer.ListaIdP | src/parser/SyntaxAnalyzer.ts:255-260 | the comma loop stops where no comma follows |
| SyntaxAnalyzer.Lista | src/parser/SyntaxAnalyzer.ts:156-160 | the statement loop stops at `}` or the end, and everything recorded only grows |
| SyntaxAnalyzer.Instruction | src/parser/SyntaxAnalyzer.ts:165-197 | every statement consumes at least one token, so the loop ends |
| SyntaxAnalyzer.TercerBloqueFor | src/parser/SyntaxAnalyzer.ts:399-423 | the update never records an error or changes anything but the position; with no name it is `''`, and otherwise its text starts with the name |
| SyntaxAnalyzer.WithoutComments | src/parser/SyntaxAnalyzer.ts:15-16 | no comment token is kept |
| SyntaxAnalyzer.ParseProgram | src/parser/SyntaxAnalyzer.ts:68-100 | `success` is true exactly when no error was recorded |
| SyntaxAnalyzerProps.CommentIgnored | src/parser/SyntaxAnalyzer.ts:15-16 | a comment token anywhere changes nothing in the result |
| SyntaxAnalyzerProps.WithoutCommentsKeeps | src/parser/SyntaxAnalyzer.ts:15-16 | a token is kept exactly when it is not a comment |
| SyntaxAnalyzerProps.UnrecognisedSkipped | src/parser/SyntaxAnalyzer.ts:165-197 | a token no statement starts with is reported once and skipped, and nothing else changes |
| SyntaxAnalyzerProps.StrayElse | src/parser/SyntaxAnalyzer.ts:165-197 | an `else` with no `if` is reported and skipped, and the statements after it are parsed |
| SyntaxAnalyzerProps.ListaStopsAtBrace | src/parser/SyntaxAnalyzer.ts:156-160 | the statement loop stops at the first `}` or the end, and never consumes a `}` itself |
| SyntaxAnalyzerProps.UsingOptional | src/parser/SyntaxAnalyzer.ts:105-111 | without `using` the using block does nothing |
| SyntaxAnalyzerProps.UsingAccepted | src/parser/SyntaxAnalyzer.ts:105-111 | `using System ;` is consumed with no error |
| SyntaxAnalyzerProps.ArgsNameOptional | src/parser/SyntaxAnalyzer.ts:133-151 | `string [ ]` is accepted with or without a parameter name |
| SyntaxAnalyzerProps.DeclaredWithoutValue | src/parser/SyntaxAnalyzer.ts:221-250 | a name alone adds one symbol with the type's default, and the line `let x: T;` |
| SyntaxAnalyzerProps.DeclaredWithValue | src/parser/SyntaxAnalyzer.ts:221-250 | `x = e` appends one symbol even when the name is already there; its value is the expression's text, or the default when the text is empty; and it emits `let x: T = e;` |
| SyntaxAnalyzerProps.DeclaredValueRenders | src/parser/SyntaxAnalyzer.ts:221-250 | with no error in the expression, the symbol's value is the pieces of the tokens it consumed |
| SyntaxAnalyzerProps.NoNameNoSymbol | src/parser/SyntaxAnalyzer.ts:221-250 | with no name, nothing is added and nothing is reported |
| SyntaxAnalyzerProps.TypeWordsKnown | src/parser/SyntaxAnalyzer.ts:548-571 | each type word has a TypeScript type other than `any`, and a default value |
| SyntaxAnalyzerProps.UpdateFirstAbsent | src/parser/SyntaxAnalyzer.ts:265-283 | an assignment to a name no symbol has changes no symbol |
| SyntaxAnalyzerProps.UpdateFirstAt | src/parser/SyntaxAnalyzer.ts:265-283 | an assignment changes only the value of the first symbol with the name |
| SyntaxAnalyzer.Asignacion | src/parser/SyntaxAnalyzer.ts:265-283 | an assignment writes `x = e;` and updates the symbols even when its `=` or `;` is missing |
| SyntaxAnalyzerProps.PrintOne | src/parser/SyntaxAnalyzer.ts:288-303 | a print hands exactly one text to the console and logs that same text |
| SyntaxAnalyzerProps.NoElse | src/parser/SyntaxAnalyzer.ts:326-335 | with no `else` the optional block adds nothing |
| SyntaxAnalyzerProps.IfLine | src/parser/SyntaxAnalyzer.ts:308-321 | the line `if (c) {` is written with the condition's text |
| SyntaxAnalyzerProps.UpdateWithoutStep | src/parser/SyntaxAnalyzer.ts:413-423 | an update with no `++` or `--` is the bare name, and no error |
| SyntaxAnalyzerProps.UpdateWithStep | src/parser/SyntaxAnalyzer.ts:413-423 | `i++` and `i--` are kept as they are |
| SyntaxAnalyzerProps.TypedInitWithoutValue | src/parser/SyntaxAnalyzer.ts:368-394 | `for (int i; …` is consumed silently, with no symbol and no code |
| SyntaxAnalyzerProps.TypedInitValue | src/parser/SyntaxAnalyzer.ts:368-394 | `for (int i = e; …` adds a symbol whose value is the text as it is, even when empty |
| SyntaxAnalyzerProps.SuccessIffNoErrors | src/parser/SyntaxAnalyzer.ts:68-100 | `success` is true exactly when no error was recorded |
| SyntaxAnalyzerProps.EmptyProgram | src/parser/SyntaxAnalyzer.ts:68-100 | with no tokens, every expected token of the class is reported, and no code is written |
| SintacticoVariante.Expect | src/analizdor/sintactico.ts:412-449 | succeeds exactly on a token of an expected kind and moves one; past the end it fails with no error; on any other token the one error names that token |
| SintacticoVariante.Uno | src/analizdor/sintactico.ts:412-449 | succeeds exactly when the current token has the kind, and then moves one |
| SintacticoVariante.Factor | src/analizdor/sintactico.ts:363-410 | a factor is arithmetic, and an atom is read as one token |
| SintacticoVariante.Expresion | src/analizdor/sintactico.ts:300-319 | an expression is arithmetic, or one comparison over two arithmetic sides |
| SintacticoVariante.ListaId | src/analizdor/sintactico.ts:148-160 | at least one variable, and the list ends where no comma follows |
| SintacticoVariante.Lista | src/analizdor/sintactico.ts:87-98 | in either reading of `parseFor`, a statement list stops at `}` or the end; any recorded error names a token from where the list began |
| SintacticoVariante.InicioPara | src/analizdor/sintactico.ts:243-262 | the `for` initialiser always ends after a `;` it consumed itself |
| SintacticoVarianteProps.DosPuntoComa | src/analizdor/sintactico.ts:243-264 | as written, a `for` header parses only when the initialiser's own `;` has a second `;` right after it |
| SintacticoVariante.Analizar | src/analizdor/sintactico.ts:15-28 | in either reading of `parseFor`, a tree comes with no error; there is at most one error, and it names a token of the input |
| SintacticoVarianteProps.SinTokens | src/analizdor/sintactico.ts:412-419 | with no tokens there is no tree and no error |
| SintacticoVarianteProps.ArbolSiParsea | src/analizdor/sintactico.ts:15-28 | there is a tree exactly when the program parses, and then no error |
| SintacticoVarianteProps.ExpectRegistraUno | src/analizdor/sintactico.ts:412-449 | a token of the wrong kind is the one error, with its line, column and kind; past the end nothing is recorded |
| SintacticoVarianteProps.CortadoSinError | src/analizdor/sintactico.ts:412-419 | a program cut short after `using System ;` gives no tree and no error |
| SintacticoVarianteProps.SinUsing | src/analizdor/sintactico.ts:41-49 | a program that does not start with `using` gives no tree and that token as the one error |
| SintacticoVarianteProps.ComentarioDetiene | src/analizdor/sintactico.ts:12-28 | with no filter, a comment where a statement should start ends the analysis |
| SintacticoVarianteProps.IdentificadorAsigna | src/analizdor/sintactico.ts:110-124 | an identifier followed by an `=` operator starts an assignment |
| SintacticoVarianteProps.IdentificadorImprime | src/analizdor/sintactico.ts:110-124 | an identifier spelled `Console` followed by `.` starts a print |
| SintacticoVarianteProps.IdentificadorRechazado | src/analizdor/sintactico.ts:110-124 | any other identifier-led statement fails with no error |
| SintacticoVarianteProps.ConsolePalabraReservada | src/analizdor/sintactico.ts:100-132 | a `CONSOLE` token, as pipeline A's scanner produces it, starts no statement |
| SintacticoVarianteProps.DeclaraSinValor | src/analizdor/sintactico.ts:134-178 | `T x ;` declares `x` with no value and takes three tokens |
| SintacticoVarianteProps.SiSinElse | src/analizdor/sintactico.ts:208-236 | with no `else` after the block, the `if` has no `else` part |
| SintacticoVarianteProps.SiPaso | src/analizdor/sintactico.ts:208-236 | `parseIf` is its condition followed by its blocks |
| SintacticoVarianteProps.SiConElse | src/analizdor/sintactico.ts:208-236 | an `else` after the block must be followed by a whole block of its own, which becomes the `else` part |
| SintacticoVarianteProps.UnaComparacion | src/analizdor/sintactico.ts:300-319 | an expression has at most one comparison, at its top |
| SintacticoVarianteProps.NumeroConservado | src/analizdor/sintactico.ts:375-388 | a number keeps its lexeme, and is decimal exactly when it was scanned as `DECIMAL` |
| SintacticoVarianteProps.FactorDesconocido | src/analizdor/sintactico.ts:363-410 | any token that is not a literal, an identifier or `(` fails with no error |
| SintacticoVarianteProps.ParaComoEscritoRechaza | src/analizdor/sintactico.ts:243-264 | as written, a header with no second `;` after the initialiser is rejected at the next token |
| SintacticoVarianteProps.ParaCorregidoAcepta | src/analizdor/sintactico.ts:243-264 | as intended, the condition follows the initialiser and its `;` directly |
| SintacticoVarianteProps.EstandarRechazada | src/analizdor/sintactico.ts:238-298 | `for (int i = 0; i < 3; i++)` is rejected as written at the condition's identifier, and parses as intended |
| SintacticoVarianteProps.CabeceraEstandarRechazada | src/analizdor/sintactico.ts:243-264 | on concrete tokens the as-written rejection is at line 1, column 5, where `i` stands |
| SintacticoVarianteProps.ParaPaso | src/analizdor/sintactico.ts:238-298 | `parseFor` is its head followed by its block, which becomes the loop body |
| SintacticoVarianteProps.CuerpoVacio | src/analizdor/sintactico.ts:87-98 | `{ }` is an empty block and takes two tokens |
| SintacticoVarianteProps.ProgramaParaComoEscrito | src/analizdor/sintactico.ts:15-28 | as written, a whole program whose `Main` holds `for (int i = 0; i < 3; i++) { }` gives no tree and one error, at the `i` that starts the condition |
| SintacticoVarianteProps.ProgramaParaCorregido | src/analizdor/sintactico.ts:15-28 | as intended, the same program gives the tree with the one `for` in `Main`, and no error |
| SintacticoVarianteProps.ProgramaParaRechazado | src/analizdor/sintactico.ts:15-28 | `analizar` as written on hand-listed tokens, with the columns the scanner gives, for `using System; public class P { static void Main(string[] a) { for (int i = 0; i < 3; i++) { } } }` gives no tree and the one error at line 1, column 79, while the intended reading gives a tree |

## Left out

- The DOM, event wiring, dialogs, timers, `fetch`, and the rest of both `Editor` classes.  These are user interface and I/O.
- The HTML report builders, `src/reportes/errores.ts` and the report code in `public/editor.js`.  They only build HTML strings.
- HTTP transport and process start-up: `src/app.ts`, `src/server.ts`, `src/routes/transpiler.ts` and `src/controllers/TranspilerController.ts`.
- `parseInt`/`parseFloat` of numeric lexemes and JavaScript's printing of numbers.  Numbers keep their lexeme in every stage, because this is floating-point formatting.
- `SyntaxAnalyzer.evaluateExpression`, a regular-expression substitution over generated text.  The model records the expression texts handed to it.
- The `catch` of `parseProgram` in `src/parser/SyntaxAnalyzer.ts`.  No modelled path throws, so it can only catch host errors.
- Error message texts.  Each message is one constructor.
- The variant parser reads a property of `null` past the end of its tokens in some places.  Each such `TypeError` is a failure with no recorded error, which is how `analizar` treats it.
- The `''` the emitter gives an unknown statement kind.  Every node the parser builds has a known kind, so this case cannot arise.
- `src/models/index.ts` holds only type declarations.  It corresponds to the `Token`, `LexicalError` and `Symbol` datatypes of `lexical_analyzer.dfy` and `syntax_analyzer.dfy`.
- `Lexico.Analizar`: it uses the corrected reserved-word lookup, so `constructor`, `toString`, `valueOf` and the four other inherited `Object.prototype` names scan as `IDENTIFICADOR`.  The code at `src/analizador/lexico.ts:131` gives them a function as their kind; that lookup is `LexicoProps.TipoIdentificadorComoEscrito` (see Findings).
- `Lexico.CaracterEspec`, `Lexico.Avanzar` and the rest of `Lexico`: one `char` is one Unicode scalar value, while the scanner indexes UTF-16 code units.  A character above U+FFFF is two code units in the code.  So `'😀'` is one `CARACTER` token in the model but an error in the code; outside a literal such a character gives two unknown-character errors in the code and one in the model; and every later column on its line is one greater in the code.  Dafny's `char` cannot hold a lone surrogate, so the model matches the code on texts whose characters are all below U+10000.
- `LexicalAnalyzer.ScanChar`, `LexicalAnalyzer.Advance` and the rest of `LexicalAnalyzer`: the same UTF-16 difference.  For `'😀'` the code records an invalid-character error and then an unknown-character error for the second code unit, where the model gives one token; columns after such a character are one greater in the code.
- `Sintactico.Analizar`: its contract states only a size bound on a tree and that a missing tree comes with an error.  Its other behaviour is stated by the lemmas in `SintacticoProps` (`ComentariosIgnorados`, `SinUsingArbolNulo`, `ClaseSinCierre`).
- `Editor.Evaluar`: its contract covers only the missing expression.  The other cases are stated by `EditorProps.EvaluarComoEmisor` and `EditorJsProps.MismaEvaluacion`.
- `SyntaxAnalyzer.Lista`, `SyntaxAnalyzer.Instruction` and the other statement productions: their contracts state progress and growth only.  The emitted lines and the symbols are stated per production by the `SyntaxAnalyzerProps` lemmas.

## Findings

| source | as written | input that shows it | evidently intended | confidence | as-written member | corrected member |
|---|---|---|---|---|---|---|
| src/analizador/lexico.ts:131 | the reserved-word lookup indexes a plain object, so inherited `Object.prototype` names are found too | the word `constructor` (also `toString`, `valueOf` and four more) gets a function as its token kind | only the table's own keys are reserved, so `constructor` is an `IDENTIFICADOR` | high, not executed | LexicoProps.TipoIdentificadorComoEscrito, LexicoProps.ConstructorRecibeFuncionComoTipo | Lexico.TipoIdentificador, LexicoProps.LookupCorregidoDifiereSoloEnHeredadas |
| src/analizdor/sintactico.ts:243-264 | `parseFor` lets `parseDeclaracion`/`parseAsignacion` consume the initialiser's `;`, then expects another `;` | `analizar` on hand-listed tokens, with the columns the scanner gives, for `using System; public class P { static void Main(string[] a) { for (int i = 0; i < 3; i++) { } } }` gives no tree and one error, at the `i` of `i < 3` (line 1, column 79) | the initialiser's `;` is the only separator, as the comment next to the code says; `Analizar(ComoEscrita, ·)` is the code, `Analizar(Corregida, ·)` the intent | high, not executed | SintacticoVariante.RestoCabeceraParaComoEscrito, SintacticoVarianteProps.ParaComoEscritoRechaza, SintacticoVarianteProps.ProgramaParaComoEscrito, SintacticoVarianteProps.ProgramaParaRechazado | SintacticoVariante.RestoCabeceraPara, SintacticoVarianteProps.ParaCorregidoAcepta, SintacticoVarianteProps.ProgramaParaCorregido |
