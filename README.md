# SIMPLE lexer, modelled in Dafny

This project models the lexical analyser of the SIMPLE teaching language. It has two parts.

- **The keyword matcher** (`lookup.h`). `lookupKeyword` lowers a copy of a word with `tolower_copy`. It then runs a loop-free chain of `goto` labels, one label per prefix of the vocabulary. The answer is 0 (not a keyword), 1 (keyword), 2 (reserved word) or 3 (noise word).
- **The scanner** (`simple_lex.c`). It is a single `while (getch())` loop in `main`.
  - It reads the source through a cursor: `getch`, `ungetch` and `peekch` count lines and columns and keep a pushback stack.
  - Each pass turns the character read into one token: a newline, a blank run, a comment, a string literal, a number, a word, an operator, a delimiter, or a one-character lexical error.
  - `add_symbol` appends every token to a capped symbol table. It mirrors lexical errors into a capped error list. Every token other than layout becomes the "previous token" context that decides whether a `+` or `-` is unary.

## How the model is built

- **`CStrings`** (`cstrings.dfy`): C strings as `seq<char>`. It holds the NUL terminator, truncation to a buffer, and the ASCII character classes and `tolower`.
- **`Lookup`** (`lookup.dfy`): the matcher as the source writes it.
  - Every label is a constructor of `State`.
  - `Step` is the body of one label, and `Run` follows the `goto`s.
  - `ToLowerCopy` is the `tolower_copy` loop over an `array`.
- **`KeywordTable`** (`keyword_table.dfy`): the vocabulary as three sets of words. It proves that the automaton decides exactly membership in these sets for the lowered word. It also proves that the `global` labels are never entered.
- **`Tokens`** (`tokens.dfy`) holds the symbol kinds, the table rows and their capacities, the context kept by `update_prev_token`, and `prev_allows_unary`.
- **`ScanSpec`** (`scan_spec.dfy`): one pass of the loop as a function `Next` of the text still to be read, the line, the column and the context. `Lex` gives the tokens of a whole input. `SymbolTable` and `ErrorList` give the tables the loop leaves.
- **`Cursors`** (`cursor.dfy`): the class `Cursor`, which holds the input, the read position, the pushback stack, `cur_line` and `cur_col`. Its methods `Getch`, `Ungetch` and `Peekch` are there, along with the inner reading loops of each branch. Each loop is proved against the `ScanSpec` function for its run.
- **`Scanner`** (`scanner.dfy`): the class `Lexer`, which holds `symtab`, `errors`, `prev_type` and `prev_lexeme`.
  - `AddSymbol` is `add_symbol`.
  - Each branch of the loop is a method proved to do what `ScanSpec.Next` says.
  - `Analyze` is the loop. It is proved to leave exactly `SymbolTable(input)` and `ErrorList(input)`.
  - The loop terminates because every pass shortens the text still to be read, pushback included.
- **`ScanProps`** (`scan_props.dfy`): what one pass does with each kind of input, stated over all inputs, and what holds of the whole token list and the tables.

## Where the code and the SIMPLE language definition disagree

The SIMPLE language definition describes the lexer this code implements. Where the two disagree, the model follows the code.

- **Operator pairs.** A two-character operator other than `/=` consumes the character after it. The pair is looked at with `peekch`, which leaves the second character unread. Then `getch(); getch();` reads the second character and the one after it (`simple_lex.c:431-478`). `ScanProps.PairSwallowsNext` and `ScanProps.AssignLosesDigit` state this: `+=1` yields `+=` and no number.
- **Line comments.** A `//` comment consumes the newline that ends it (`simple_lex.c:275-281`), so no newline token follows. The language definition says the newline is not consumed.
- **"to do" hand-back.** When "to" is not followed by "do", the peeked blanks are handed back as spaces (`simple_lex.c:400`). Tabs therefore come back as spaces, and the column goes to 0 when the look-ahead stopped at a newline. The language definition says the cursor is restored exactly as if nothing was peeked.
- **Concatenation.** Because of the three points above, and because long runs are cut to their buffers, the lexemes do not concatenate back to the input. The model proves no such property.
- **Boolean literals.** The language definition recognises `true`/`false` as Boolean literals. The code has no such rule, so they are identifiers here.
- **Datatypes.** The code checks only five datatype names (`int`, `float`, `char`, `bool`, `array`), not the longer list in the language definition.
- **The word `global`.** The code spells it out in labels that nothing reaches, so `global` is not a keyword.
- **Capitalised "to do".** The merge compares with `strcmp`, so "To do" is the noise word "To" followed by the word "do".

## Model

| member | source | states |
|---|---|---|
| Lookup.Step | lookup.h:27-726 | every `goto` of a label leads to a label of higher rank, and every `return` gives a class between 0 and 3 |
| Lookup.StepStart | lookup.h:28-50 | the switch on the first character returns 0 or jumps to one of the seventeen letter sections |
| Lookup.Run | lookup.h:20-729 | following the labels from any label ends in a class between 0 and 3 |
| Lookup.LowerCopy | lookup.h:11-18 | the copy is at most `bufsize - 1` characters, holds no NUL, is the lowered prefix of the word, and stops at the word's terminator when there is room |
| Lookup.ToLowerCopy | lookup.h:11-18 | the loop writes the lowered copy into the buffer and terminates it with NUL, leaving the rest of the buffer unchanged |
| Lookup.LookupKeyword | lookup.h:20-729 | the result is always 0, 1, 2 or 3, the range the header comment (lookup.h:1-2) promises |
| KeywordTable.VocabClass | lookup.h:53-726 | the class of a word is 1, 2 or 3 exactly when it is in the keyword, reserved-word or noise-word list |
| KeywordTable.VocabularyWordsAreShort | lookup.h:20-22 | every vocabulary word has 2 to 10 characters and no NUL, so the 255-character copy never cuts one |
| KeywordTable.RunExact | lookup.h:53-726 | from any label the word reaches, the labels that follow return the class the vocabulary table gives the word |
| KeywordTable.RunIsVocabClass | lookup.h:27-726 | the automaton from its start decides exactly the vocabulary class of a NUL-free word |
| KeywordTable.DeadLabelsUnreachable | lookup.h:474-510 | no label reached by a word jumps to Q_GLO2, Q_GLOB3 or Q_GLOBA4: Q_GL1 re-tests index 2 for 'o' after it held 'l' |
| KeywordTable.LookupIsVocabClass | lookup.h:20-729 | lookupKeyword returns 1, 2 and 3 exactly for the keywords, reserved words and noise words, and 0 exactly for any other lowered word |
| KeywordTable.LookupIgnoresCase | lookup.h:11-22 | lookupKeyword gives a word and its lowered form the same answer |
| KeywordTable.StartRejectsFirstLetter | lookup.h:28-50 | an empty word, or a first letter outside the seventeen that start a section, returns 0 |
| KeywordTable.LookupRejectsFirstLetter | lookup.h:20-50 | a word that is empty or whose lowered first letter starts no section returns 0 |
| KeywordTable.LookupWord | lookup.h:20-729 | a NUL-free word gets the class its lowered form has in the vocabulary table |
| KeywordTable.LookupRejectsPrefixes | lookup.h:53-66 | proper prefixes of vocabulary words ("le", "lo", "tim") return 0 |
| KeywordTable.LookupRejectsExtensions | lookup.h:60-66 | a vocabulary word with more letters after it ("lets", "times") returns 0 |
| KeywordTable.LookupRejectsOtherBlanks | lookup.h:316-343 | every word that, lowered, starts with "to" and ends with "do" returns 0 unless it is "to do" with exactly one space: any other separator is rejected |
| KeywordTable.LookupRejectsGlobal | lookup.h:474-510 | every spelling of "global", in any mix of upper and lower case, returns 0 |
| KeywordTable.LookupToDoAnyCase | lookup.h:316-343 | every spelling of "to do" with one space, in any mix of upper and lower case, is a keyword |
| Tokens.Keep | simple_lex.c:62-63 | a `strncpy` into a buffer of `size` characters keeps a NUL-free prefix of the C string: all of it when it fits, and exactly `size - 1` characters when it does not |
| Tokens.Stored | simple_lex.c:72-83 | a stored lexeme is the C string of the lexeme cut to its first 1023 characters: a NUL-free prefix of it, as long as the string when that is shorter than 1024, and exactly 1023 characters otherwise |
| Tokens.Remember | simple_lex.c:60-68 | update_prev_token keeps the kind and at most 127 characters of the lexeme; the kept lexeme is empty exactly when the lexeme is |
| ScanSpec.Next | simple_lex.c:233-517 | every pass of the loop reads at least one character, which is the termination measure of the loop |
| ScanSpec.WhitespaceStep | simple_lex.c:242-260 | a blank run is one token at column `max(1, first column - (kept length - 1))` on the same line |
| ScanSpec.OperatorPair | simple_lex.c:421-478 | an operator pair is taken with two reads after the peek, three characters in all when the input has them |
| ScanSpec.OperatorSingle | simple_lex.c:437-516 | any other character is a one-character token of the kind the chain gives it |
| ScanSpec.RecordAllTables | simple_lex.c:70-93 | adding tokens one by one to the tables of a token list gives the tables of the longer list |
| ScanSpec.RecordInput | simple_lex.c:226-517 | adding every token of an input to empty tables gives its symbol table and its error list |
| Cursors.Cursor.constructor | simple_lex.c:226-227 | reading starts at the first character, on line 1 at column 0, with nothing pushed back |
| Cursors.Cursor.Getch | simple_lex.c:156-166 | a read returns the next character (pushed-back ones first) or EOF; a newline moves to column 0 of the next line, and any other character moves one column on |
| Cursors.Cursor.Ungetch | simple_lex.c:168-177 | a character handed back is the next one read; a newline steps back a line (never above 1) and sets column 0, and any other character steps back a column (never below 0) |
| Cursors.Cursor.Peekch | simple_lex.c:179-184 | a peek returns the next character and leaves the text to read and the line unchanged; a newline peeked leaves column 0 |
| Cursors.Cursor.ReadBlanks | simple_lex.c:244-252 | the loop reads the whole blank run, keeps at most 255 of its characters and hands back the character after it |
| Cursors.Cursor.ReadLineComment | simple_lex.c:271-277 | the loop keeps the comment up to the newline (at most 2047 characters) and reads that newline too |
| Cursors.Cursor.ReadBlockComment | simple_lex.c:284-293 | the loop reads until the first star and slash, or to the end of input, keeping at most 8191 characters |
| Cursors.Cursor.ReadString | simple_lex.c:314-328 | the loop reads until the closing quote or the end of input, keeping escape pairs whole |
| Cursors.Cursor.ReadNumber | simple_lex.c:337-350 | the loop reads the longest run of digits with at most one '.', keeping at most 255 characters |
| Cursors.Cursor.ReadWord | simple_lex.c:358-366 | the loop reads the longest run of letters, digits and underscores, keeping at most 1023 characters |
| Cursors.Cursor.SkipBlanks | simple_lex.c:376-379 | the loop counts and reads exactly the blanks that follow "to" |
| Cursors.Cursor.PeekWord | simple_lex.c:381-391 | the look-ahead reads the letters that follow, at most 15 of them |
| Cursors.Cursor.ReadLetters | simple_lex.c:385-389 | the loop reads the longest run of letters, stopping after 15 |
| Cursors.Cursor.Unread | simple_lex.c:399-400 | handing back gives the text the letters and then as many spaces as blanks were counted, on the same line |
| Scanner.Lexer.constructor | simple_lex.c:226-231 | the scan starts with empty tables, the start context, and the whole text to read |
| Scanner.Lexer.UpdatePrevToken | simple_lex.c:60-68 | the context becomes the token's kind and kept lexeme, and the tables are unchanged |
| Scanner.Lexer.AddSymbol | simple_lex.c:70-93 | the token is appended to the symbol table while there is room and to the error list when it is an error and there is room; the context follows the token |
| Scanner.Lexer.ScanWhitespace | simple_lex.c:242-260 | the branch does what `ScanSpec.NextWhitespace` says to the tables, the cursor and the context |
| Scanner.Lexer.ScanSlash | simple_lex.c:268-310 | the branch does what `ScanSpec.NextSlash` says |
| Scanner.Lexer.ScanLineComment | simple_lex.c:270-281 | the line-comment branch does what `ScanSpec.NextSlash` says |
| Scanner.Lexer.ScanBlockComment | simple_lex.c:283-297 | the block-comment branch does what `ScanSpec.NextSlash` says |
| Scanner.Lexer.SlashOperator | simple_lex.c:299-309 | "/=" and a single '/' do what `ScanSpec.NextSlash` says |
| Scanner.Lexer.ScanString | simple_lex.c:313-334 | the branch does what `ScanSpec.NextString` says |
| Scanner.Lexer.ScanNumber | simple_lex.c:336-352 | the branch does what `ScanSpec.NextNumber` says |
| Scanner.Lexer.ScanWord | simple_lex.c:355-419 | the branch does what `ScanSpec.NextWord` says |
| Scanner.Lexer.EndWord | simple_lex.c:369-418 | after the word is read, the "to do" rule or the classification does what `ScanSpec.NextWord` says |
| Scanner.Lexer.AddWord | simple_lex.c:404-416 | the word is added with the kind its lowered form gives it, keeping its own case |
| Scanner.Lexer.ScanToDo | simple_lex.c:369-401 | "to" before a blank does what `ScanSpec.NextToDo` says |
| Scanner.Lexer.EndToDo | simple_lex.c:381-401 | the peeked letters decide between the merge and the hand-back as `ScanSpec.NextToDo` says |
| Scanner.Lexer.MergeToDo | simple_lex.c:393-397 | "do" after the blanks adds the keyword "to do" |
| Scanner.Lexer.ToAlone | simple_lex.c:399-416 | anything else is handed back and "to" is added alone |
| Scanner.Lexer.ScanOperator | simple_lex.c:421-516 | the operator chain does what `ScanSpec.NextOperator` says |
| Scanner.Lexer.TakePair | simple_lex.c:432-433 | a pair is read with two `getch` calls after the peek and added as one token |
| Scanner.Lexer.ScanToken | simple_lex.c:236-516 | one pass on the character read does what `ScanSpec.Next` says |
| Scanner.Lexer.Pass | simple_lex.c:234-517 | a pass either finds the input ended and changes nothing, or reads a shorter rest, and the tables still to come are those of the remaining tokens |
| Scanner.Lexer.Analyze | simple_lex.c:233-517 | the loop leaves exactly the symbol table and the error list of the whole input |
| Scanner.LexText | simple_lex.c:226-517 | scanning a text from the start gives its symbol table and its error list |
| Scanner.IsDatatype | simple_lex.c:186-192 | the answer is true exactly for `int`, `float`, `char`, `bool` and `array` |
| Scanner.LowerWord | simple_lex.c:404-407 | the loop builds the lowered word |
| Scanner.ClassifyWord | simple_lex.c:404-416 | the kind is the one `ScanSpec.Classify` gives, whose rules `ScanProps.ClassifyRules` states |
| ScanProps.NewlineToken | simple_lex.c:236-240 | a newline is the two-character lexeme `\n` on the line it ends, at column 1; the text goes on at column 0 of the next line and the context is kept |
| ScanProps.WhitespaceToken | simple_lex.c:242-260 | a maximal blank run is one token holding at most 255 blanks, at column `max(1, col + 1 - (kept - 1))`; the text goes on after the whole run, with the context kept |
| ScanProps.LineCommentToken | simple_lex.c:270-281 | a line comment runs from `//` to the end of its line; the newline is swallowed, so the text goes on at column 0 of the next line with no newline token; the context is kept |
| ScanProps.BlockScanCloses | simple_lex.c:289-293 | the block-comment loop closes exactly when a star is followed by a slash, and then stops right after the first such slash |
| ScanProps.BlockCommentToken | simple_lex.c:283-297 | a block comment is a comment exactly when a `*/` closes it, and otherwise a lexical error running to the end of input. The token sits at the position of its `/`, and its lexeme is the text read cut to 8191 characters, so it starts with `/*`. For a closed comment the text read ends in `*/` and scanning resumes after it |
| ScanProps.StrScanEscapedRun | simple_lex.c:319-328 | over a body of plain characters and backslash pairs, the literal loop keeps the body as it is, each backslash with the character after it; it closes only on the quote that follows, and stays open at the end of input or at a backslash with nothing after it |
| ScanProps.StringToken | simple_lex.c:313-334 | a literal is its body without the quotes, each backslash kept with the character it escapes: a string when the closing quote follows, and a lexical error running to the end of input when the input ends first, also right after a lone backslash |
| ScanProps.NumRunShape | simple_lex.c:344-348 | the number loop takes only digits and at most one '.', and stops only at a character it may not take |
| ScanProps.NumberToken | simple_lex.c:336-352 | a number is the longest run of digits with at most one '.', starting with a digit, with at most 255 characters kept |
| ScanProps.WordToken | simple_lex.c:355-418 | a word is the longest run of letters, digits and underscores, keeping its case, with the kind its lowered form gives it; the text goes on after the whole word |
| ScanProps.ClassifyRules | simple_lex.c:404-416 | a word's kind ignores case; it is a datatype exactly when its lowered form is one of the five names; otherwise it takes lookupKeyword's class, and it is an identifier exactly when it is in no list |
| ScanProps.DatatypesAreKeywords | simple_lex.c:412-413 | the five datatype names are keywords of the vocabulary too, so the datatype test must come first |
| ScanProps.ClassifyTo | simple_lex.c:415 | "to" on its own is a noise word |
| ScanProps.ToDoMerge | simple_lex.c:369-397 | "to", at least one blank, and a letter run that is exactly "do" are one keyword "to do" at the position of 't'; the text goes on right after "do" (so "to do1" merges) |
| ScanProps.ToDoKeepsTo | simple_lex.c:399-416 | "to", blanks and any other letter run give the noise word "to"; the blanks come back as spaces before the letters, on the same line, at column 0 when the look-ahead stopped on a newline |
| ScanProps.ToDoIsCaseSensitive | simple_lex.c:369 | "To", "tO" and "TO" before a blank are never merged; they are the noise word alone |
| ScanProps.PairSwallowsNext | simple_lex.c:421-478 | each of `++ -- <= >= == != += -= *= %= ~= && \|\|` is one token of its kind, and the pass also takes the character after the pair |
| ScanProps.AssignLosesDigit | simple_lex.c:451-457 | "+=1" gives the token "+=" and nothing more: the digit is lost |
| ScanProps.SlashAssignToken | simple_lex.c:299-303 | "/=" is an assignment operator that takes exactly its two characters |
| ScanProps.SignToken | simple_lex.c:494-501 | a lone `+` or `-` is a unary operator exactly when the previous-token context allows one, and an arithmetic operator otherwise |
| ScanProps.SignAfterEmptyString | simple_lex.c:62-67 | after the empty literal `""`, whose lexeme is empty, a sign is unary |
| ScanProps.IdentifierContext | simple_lex.c:89-92 | an identifier leaves a context in which a sign is not unary |
| ScanProps.SignAfterIdentifier | simple_lex.c:494-501 | after an identifier a sign is a binary arithmetic operator |
| ScanProps.DelimiterChar | simple_lex.c:503-509 | only the six delimiters have a delimiter kind, and none of them starts an operator pair |
| ScanProps.DelimiterToken | simple_lex.c:503-509 | each of `( ) [ ] : ,` is a one-character token of its own kind |
| ScanProps.UnknownCharIsError | simple_lex.c:511-516 | any character no rule takes, including a lone `&` or `\|`, is a one-character lexical error |
| ScanProps.ContextFollowsToken | simple_lex.c:86-92 | every pass leaves the context add_symbol gives after its token: layout tokens keep it, any other token replaces it |
| ScanProps.TokenPosition | simple_lex.c:236-516 | each token is on the line the pass starts on, at column 1 or later, and the pass never moves back a line |
| ScanProps.LexPlaced | simple_lex.c:234-517 | the tokens of the remaining text are at column 1 or later, from the current line on, in non-decreasing line order |
| ScanProps.InputPlaced | simple_lex.c:226-517 | every token of an input is at line 1 or later and column 1 or later, and the lines never go back |
| ScanProps.ErrorsMirrorSymbols | simple_lex.c:80-88 | before the caps, the error list is the lexical-error rows of the symbol table, in order, with the same lexeme, line and column |
| ScanProps.ErrorListOfSymbols | simple_lex.c:70-93 | the error list of an input is its first 1024 lexical-error symbols |
| ScanProps.TablesBounded | simple_lex.c:72-84 | the symbol table is the first 20000 symbols, the error list holds at most 1024 rows, and every stored lexeme is NUL-free and shorter than 1024 characters |

## Left out

- File and console I/O are not modelled: the file-name prompt, `fopen` and `perror` (`simple_lex.c:215-224`), and `fclose`, `getcwd` and the output path (`simple_lex.c:519-530`). The input is a `string`.
- The report writer `write_symbol_table_to_path` (`simple_lex.c:95-149`) only formats the tables with `fprintf`. The model stops at the tables.
- `isalpha`, `isdigit`, `isalnum` and `tolower` are their ASCII forms. Locales and the `_WIN32` path separator are not modelled.
- `ungetc` is modelled with an unbounded pushback stack. ISO C (section 7.21.7.10 of C11) promises only one character, so the failure branch at `simple_lex.c:170` is never taken in the model.
- The C buffers are sequences with the source's capacities as named constants (255, 2047, 2046, 8191, 1023 and 15). A character past a capacity is read and dropped, as in the code.
- `T_UNKNOWN` is declared but never produced. The column after a pass is stated exactly except in front of a newline, where the next token resets it.
- Scanner.ClassifyWord: requires a word without NUL. A word read by the scan loop never holds one, because `strlen` would cut it.
- ScanProps.StringToken: stated for literals of at most 2047 characters. A longer literal is cut to its buffer; `Cursors.Cursor.ReadString` and `ScanSpec.StrScan` state the cut.
- ScanProps.WordToken: excludes "to" before a blank, which `ScanProps.ToDoMerge` and `ScanProps.ToDoKeepsTo` cover.
- ScanProps.ToDoMerge: stated for texts whose letter run after the blanks is exactly "do". With 15 or more letters, the look-ahead stops at 15 and hands them back; `ScanSpec.NextToDo` states that case.
- ScanProps.SignToken: states the kind and the one character taken. The context afterwards is given by `ScanProps.ContextFollowsToken`.
- KeywordTable.LookupRejectsPrefixes: stated for sample words. The general whole-word property is `KeywordTable.LookupIsVocabClass`.
- KeywordTable.LookupRejectsExtensions: stated for sample words, as above.
- ScanProps.TokenPosition: states line and column bounds, not each token's exact column. The exact columns are in the per-branch lemmas.
