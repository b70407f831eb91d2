# calcagebra: tokens and the sequence built-ins, in Dafny

This project models two pieces of the calcagebra interpreter and proves what they promise.

The first piece is the token classifier and printer of `src/token.rs`:

- `Token::new` trims the lexeme and matches it against the 26 keywords and symbols.
- Failing that, a lexeme made only of ASCII digits and periods is read with
  `parse::<f32>().unwrap()`.
- Anything else becomes an identifier that keeps the untrimmed text.
- `Display` prints a token back.

The number payload is the literal's exact decimal value in a canonical form, in place
of the f32. Two literals give the same token exactly when they denote the same decimal
number. The parse fails, and the model panics, exactly when the text has no digit or
more than one period ("", ".", "1.2.3").

The second piece is the standard library object of `src/standardlibrary.rs`:

- The object has an empty constructor, `from_map` and `init_std`, which installs the
  19 named closures.
- The sequence built-ins `len`, `get`, `set`, `sum`, `product` and `map` are modelled
  in full.
- A closure is a `Builtin` tag, and `Stdlib.Apply` is the closure it stands for.
- Panics (`x[k]` out of range, `unwrap` on `None`, `Vec::insert` past the end, the float
  parse, `unreachable!`) are the `Panic` case of `Outcomes.Result`.

Some parts of the interpreter live outside these two files:

- the coercions `to_number` and `to_set` on the other `Data` variants;
- `UnsizedSet::len`;
- the numeric and I/O built-ins;
- the body of a user function (`Function::run`).

These are the fields of a `Stdlib.Host` record fixed for one evaluation.

Where the source works step by step, the model does too:

- `init_std` is a method of the `Library.StandardLibrary` class that inserts into its
  table one name at a time.
- The `map` closure's loops are while/for loops (`Stdlib.MapClosure` and the methods
  it calls).
- `set` inserts into an array copy of the vector (`Stdlib.Insert`).

Each method is proved equal to the function that specifies it. The properties are
proved about those functions against independent reference definitions: plain sums
and products, the flattened element sequence, per-element results.

Files:

- `outcomes.dfy`: results and panics.
- `numerals.dfy`: digit/period literals, their exact values, printing and parsing.
- `tokens.dfy`: `Token`, `Token::new`, `Display`.
- `values.dfy`: `Data` and the `f32 as usize` cast.
- `standardlibrary.dfy`: the closures and the loop methods.
- `library.dfy`: the `StandardLibrary` object.
- `standardlibrary_properties.dfy`: the properties of the built-ins.

## Model

| member | source | states |
|---|---|---|
| Tokens.Trim | src/token.rs:41 | the definition of `str::trim`; `TrimStart`, `TrimEnd` and `TrimSurrounded` state what it cuts |
| Tokens.TrimStart | src/token.rs:41 | the trimmed text is the suffix left after a prefix made only of Unicode whitespace, and it does not start with whitespace |
| Tokens.TrimEnd | src/token.rs:41 | the trimmed text is the prefix left before a suffix made only of Unicode whitespace, and it does not end with whitespace |
| Tokens.TrimSurrounded | src/token.rs:41 | whitespace on both sides of a word that neither starts nor ends with whitespace is trimmed away, leaving the word |
| Tokens.Keyword | src/token.rs:42-70 | the definition of the 26 keyword and symbol arms; `FixedLexemeOf`, `FixedTokenOf` and `FixedLexemesShape` state that they name the 26 fixed tokens one to one and that no lexeme is blank-edged or numeric |
| Tokens.New | src/token.rs:40-79 | the only panic is the float parse of a digit/period lexeme, and an identifier keeps the untrimmed lexeme; `FixedLexemePadded`, `IdentifierFallback`, `NumeralLexeme`, `NumeralPanics` and `TokenRoundTrip` state the rest |
| Tokens.Display | src/token.rs:82-115 | the definition of the printer; `FixedLexemeOf`, `IdentifierFallback`, `NumberRoundTrip` and `TokenRoundTrip` state that `New` reads its output back |
| Tokens.FixedLexemeOf | src/token.rs:42-70 | every keyword or symbol token is printed as a lexeme of the match that names that very token (so "E" names `Belongs`) |
| Tokens.FixedTokenOf | src/token.rs:42-70 | every lexeme of the match names a keyword or symbol token that prints as that lexeme; with `FixedLexemeOf`, the 26 lexemes are distinct and name 26 distinct tokens |
| Tokens.FixedLexemesShape | src/token.rs:42-72 | no fixed lexeme is empty, starts or ends with whitespace, or consists only of digits and periods |
| Tokens.FixedLexemePadded | src/token.rs:41-70 | a keyword or symbol with any whitespace before and after it still yields that keyword or symbol |
| Tokens.FixedRoundTrip | src/token.rs:40-113 | printing a keyword or symbol token and classifying the text gives the same token |
| Tokens.IdentifierFallback | src/token.rs:71-77 | a lexeme becomes an identifier exactly when its trimmed form is not a fixed lexeme and it has a character that is neither an ASCII digit nor a period; the identifier keeps the untrimmed text and prints as it |
| Tokens.NumeralLexeme | src/token.rs:71-74 | a digit/period lexeme is never trimmed and never a fixed lexeme; it is the parsed number, or the `InvalidFloat` panic when the parse fails |
| Tokens.SpacedDigitsAreIdentifier | src/token.rs:72-75 | whitespace followed by digits (" 12") is the identifier with that whole text, not a number |
| Tokens.NumeralPanics | src/token.rs:72-73 | a lexeme of digits and periods panics in the float parse exactly when it has no digit or more than one period, and the panic is the parse failure |
| Tokens.EmptyNumeral | src/token.rs:73 | the empty lexeme panics in the float parse |
| Tokens.LonePeriod | src/token.rs:73 | "." panics in the float parse |
| Tokens.TwoPeriods | src/token.rs:73 | "1.2.3" panics in the float parse |
| Tokens.SameNumeralSameToken | src/token.rs:73 | two numerals that parse to the same value are the same token |
| Tokens.TrailingZeroInFraction | src/token.rs:73 | a trailing zero after the point does not change the token ("1.50" and "1.5") |
| Tokens.LeadingZero | src/token.rs:73 | a leading zero does not change the token ("07" and "7") |
| Tokens.NumberRoundTrip | src/token.rs:85 | a number token prints as a numeral that classifies back to the same number token |
| Tokens.TokenRoundTrip | src/token.rs:40-113 | every token that `Token::new` yields prints as text that `Token::new` classifies back to that token |
| Numerals.ParseNumeral | src/token.rs:73 | a successful parse yields a canonical decimal (no trailing zero after the point) |
| Numerals.ParseNumeralDefined | src/token.rs:73 | the parse of a digit/period text succeeds exactly when the text has a digit and at most one period |
| Numerals.ParseWhole | src/token.rs:73 | a non-empty run of digits parses to the whole number it spells |
| Numerals.Normalize | src/token.rs:73 | the normal form is canonical and has no more fraction digits than the reading |
| Numerals.NormalizeKeepsValue | src/token.rs:73 | normalizing keeps the value `mantissa / 10^scale` |
| Numerals.NormalizeSameValue | src/token.rs:73 | two readings normalize to the same decimal exactly when they denote the same number |
| Numerals.CanonicalUnique | src/token.rs:73 | two canonical decimals with the same value are equal |
| Numerals.ParseWithPoint | src/token.rs:73 | "a.b" with digit strings a and b, not both empty, parses to the normal form of the digits of a and b with the length of b as the scale |
| Numerals.ParseTrailingZero | src/token.rs:73 | "a.b0" and "a.b" parse to the same decimal |
| Numerals.ParseLeadingZero | src/token.rs:73 | "0s" and "s" parse to the same decimal |
| Numerals.Show | src/token.rs:85 | the definition of the number printer; `ShowIsNumeral` and `ShowParseRoundTrip` state that it prints a numeral that parses back to the same decimal |
| Numerals.ShowIsNumeral | src/token.rs:85 | the printed number is non-empty, starts with a digit and consists only of digits and periods |
| Numerals.ShowParseRoundTrip | src/token.rs:85 | printing a canonical decimal and parsing the text gives the decimal back |
| Values.AsIndex | src/standardlibrary.rs:90 | the `f32 as usize` cast drops the fraction, maps values below 1 (negatives included) to 0 and saturates at the largest 64-bit `usize` |
| Values.WholeIndex | src/standardlibrary.rs:90 | a whole number that fits in a `usize` casts to itself |
| Stdlib.Arg | src/standardlibrary.rs:88 | `x[k]` is the k-th argument when there is one and the index panic otherwise |
| Stdlib.ToNumber | src/standardlibrary.rs:90 | `to_number` of a number is its value |
| Stdlib.ToSet | src/standardlibrary.rs:88 | `to_set` of a sized set is its own vector |
| Stdlib.LenOp | src/standardlibrary.rs:77-84 | `len` is 1 for a number, a bool or a function, the element count for a sized set; it succeeds exactly when there is an argument |
| Stdlib.GetOp | src/standardlibrary.rs:86-93 | `get(S, i)` is element i of S when i is below the length and the `unwrap` panic from the length on; it panics with fewer than two arguments |
| Stdlib.SetOp | src/standardlibrary.rs:94-99 | `set(S, i, v)` for i up to the length is a sized set one longer than S: S's prefix before i, then v at i, then the rest of S shifted up by one; past the length it is the insertion panic |
| Stdlib.SetTotal | src/standardlibrary.rs:104-109 | the definition of one set's running sum; `StdlibProperties.SetTotalIsTotal` states it is the plain sum of the set's numbers |
| Stdlib.SumOver | src/standardlibrary.rs:103-111 | the definition of the sum of the per-set sums; `StdlibProperties.SumOverIsTotal` states it is the plain sum of the flattened elements |
| Stdlib.SumOp | src/standardlibrary.rs:100-113 | the definition of `sum`; `StdlibProperties.SumIsTotal` and `StdlibProperties.EmptySetIsNeutral` state its value |
| Stdlib.Times | src/standardlibrary.rs:124-126 | the definition of multiplication in `product`, exact |
| Stdlib.SetProduct | src/standardlibrary.rs:119-124 | the definition of one set's running product; `StdlibProperties.SetProductIsProd` states it is the plain product of the set's numbers |
| Stdlib.ProductOver | src/standardlibrary.rs:118-126 | the definition of the product of the per-set products; `StdlibProperties.ProductOverIsProd` states it is the plain product of the flattened elements |
| Stdlib.ProductOp | src/standardlibrary.rs:115-128 | the definition of `product`; `StdlibProperties.ProductIsProd` and `StdlibProperties.EmptySetIsNeutral` state its value |
| Stdlib.SplitArguments | src/standardlibrary.rs:132-140 | the sets are the arguments before the first function value, none of them a function; the name is that function's name, or "" when there is none |
| Stdlib.SplitUnique | src/standardlibrary.rs:132-140 | any split with those properties is the one `map` computes |
| Stdlib.Bind | src/standardlibrary.rs:156-160 | binding succeeds exactly when there are at least as many sets as parameters, and otherwise is the index panic |
| Stdlib.MapOp | src/standardlibrary.rs:130-165 | the definition of `map`; `StdlibProperties.MapWithBuiltin`, `MapWithUserFunction`, `MapWithoutFunction`, `MapWithNonFunction` and `MapIgnoresRest` state its branches, and `Stdlib.MapClosure` computes it |
| Stdlib.MapEach | src/standardlibrary.rs:144-153 | the definition of the outer loop; `StdlibProperties.MapEachResults` states it is f over the flattened sets |
| Stdlib.MapElements | src/standardlibrary.rs:145-152 | the definition of the inner loop; `StdlibProperties.MapElementsResults` states it is f of each element on its own |
| Stdlib.Apply | src/standardlibrary.rs:146-151 | the definition of calling a registry entry's closure: `len`, `get`, `set`, `sum`, `product` and `map` are the modelled closures, the rest go to the host |
| Stdlib.MapElementsStops | src/standardlibrary.rs:145-152 | once one element's call panics, the inner loop ends in that panic |
| Stdlib.MapEachStops | src/standardlibrary.rs:144-153 | once one set panics, the outer loop ends in that panic |
| Stdlib.MapElementsStep | src/standardlibrary.rs:145-152 | one more element appends its result, or its panic is the result |
| Stdlib.MapEachStep | src/standardlibrary.rs:144-153 | one more set appends its elements' results, or its coercion or element panic is the result |
| Stdlib.ApplyToElements | src/standardlibrary.rs:145-152 | the inner loop over one set's elements computes `MapElements` |
| Stdlib.ApplyToSets | src/standardlibrary.rs:144-153 | the outer loop over the sets computes `MapEach` |
| Stdlib.BindParameters | src/standardlibrary.rs:156-160 | the binding loop on the copied variable table computes `Bind` |
| Stdlib.MapClosure | src/standardlibrary.rs:130-165 | the `map` closure (splitting loop, registry branch loops, function-table lookup, binding loop, `unreachable!`) computes `MapOp` |
| Stdlib.SetClosure | src/standardlibrary.rs:94-99 | the `set` closure, with its copy and in-place insert, computes `SetOp` |
| Stdlib.Insert | src/standardlibrary.rs:97 | `Vec::insert(i, v)` within bounds yields the prefix before i, then v, then the rest |
| Library.StdTable | src/standardlibrary.rs:26-191 | the definition of the 19 entries `init_std` inserts; `StdTableNames` and `StdTableHasNoEmptyName` state its names |
| Library.StandardLibrary.constructor | src/standardlibrary.rs:16-20 | `new` has an empty table |
| Library.StandardLibrary.FromMap | src/standardlibrary.rs:22-24 | `from_map` has the given table |
| Library.StandardLibrary.InitStd | src/standardlibrary.rs:26-191 | after `init_std` the table is the old table with the 19 standard entries written over it |
| Library.InsertsMerge | src/standardlibrary.rs:26-191 | the 19 successive inserts are the same as merging the standard table into the old table |
| Library.StdTableNames | src/standardlibrary.rs:26-191 | the standard table has exactly the names print, read, round, ceil, floor, log, sin, cos, tan, sqrt, cbrt, nrt, len, get, set, sum, product, map and graph |
| Library.StdTableHasNoEmptyName | src/standardlibrary.rs:141 | the empty name that `map` looks up when it finds no function is not a standard entry |
| Library.NewInitialised | src/standardlibrary.rs:16-191 | a new library after `init_std` holds the standard table and nothing else |
| StdlibProperties.GetAfterSet | src/standardlibrary.rs:86-99 | for i up to the length, `get(set(S, i, v), i)` is v; `len(set(S, i, v))` is `len(S) + 1` |
| StdlibProperties.GetAfterSetElsewhere | src/standardlibrary.rs:86-99 | after `set(S, i, v)`, index j below i reads as `get(S, j)`, and index j above i reads as `get(S, j - 1)` |
| StdlibProperties.SetThenRemove | src/standardlibrary.rs:94-99 | removing the inserted element from `set(S, i, v)` gives back S |
| StdlibProperties.GetByIndex | src/standardlibrary.rs:86-93 | `get` at a whole index is the element below the length and the `unwrap` panic from the length on |
| StdlibProperties.SetTotalIsTotal | src/standardlibrary.rs:104-109 | one set's running sum is the plain sum of its numbers |
| StdlibProperties.SetProductIsProd | src/standardlibrary.rs:119-124 | one set's running product is the plain product of its numbers |
| StdlibProperties.SumOverIsTotal | src/standardlibrary.rs:101-112 | the sum of the per-set sums is the plain sum of all elements of all sets |
| StdlibProperties.SumIsTotal | src/standardlibrary.rs:100-113 | `sum` over sized sets of numbers is the number equal to the plain sum of all their elements |
| StdlibProperties.ProductOverIsProd | src/standardlibrary.rs:116-127 | the product of the per-set products is the plain product of all elements of all sets |
| StdlibProperties.ProductIsProd | src/standardlibrary.rs:115-128 | `product` over sized sets of numbers is the number equal to the plain product of all their elements |
| StdlibProperties.EmptySetIsNeutral | src/standardlibrary.rs:100-128 | an extra empty set adds 0 to a sum and multiplies a product by 1 |
| StdlibProperties.SumAndProductExample | src/standardlibrary.rs:100-128 | `sum({2, 3}, {5})` is 10 and `product({2, 3}, {5})` is 30 |
| StdlibProperties.MapElementsResults | src/standardlibrary.rs:145-152 | when every call succeeds, the inner loop yields f of each element on its own, in order |
| StdlibProperties.MapEachResults | src/standardlibrary.rs:144-153 | when every call succeeds, the outer loop yields f of each element of the flattened sets, set by set and in order |
| StdlibProperties.MapWithBuiltin | src/standardlibrary.rs:141-154 | `map` with a registry name is a sized set of f applied to each element of each set argument on its own, in order, as long as the sum of the set lengths |
| StdlibProperties.MapLenExample | src/standardlibrary.rs:130-154 | `map({1, 2, 3}, len)` is `{1, 1, 1}` |
| StdlibProperties.MapIgnoresRest | src/standardlibrary.rs:134-140 | the arguments after the first function value do not change the result of `map` |
| StdlibProperties.MapWithoutFunction | src/standardlibrary.rs:155 | with no function value among the arguments, the function-table `unwrap` on the empty name panics |
| StdlibProperties.BindKeys | src/standardlibrary.rs:156-160 | binding adds exactly the parameter names to the variable table |
| StdlibProperties.BindParameter | src/standardlibrary.rs:158-160 | a parameter, at its last occurrence, is bound to the whole set argument in its position |
| StdlibProperties.BindOther | src/standardlibrary.rs:156-160 | a variable that is not a parameter keeps its value |
| StdlibProperties.MapWithUserFunction | src/standardlibrary.rs:155-162 | `map` with a user function runs it once on the extended variable table, and panics on the index when there are fewer sets than parameters |
| StdlibProperties.MapBindsWholeSets | src/standardlibrary.rs:155-162 | the table the user function runs on maps parameter j to the j-th whole set argument, not to an element |
| StdlibProperties.MapWithNonFunction | src/standardlibrary.rs:155-164 | a function-table entry that is not a function value reaches `unreachable!()` |

## Left out

- `print`, `read` and `graph` (stdin/stdout I/O and terminal plotting) and the f32 built-ins `round` … `nrt` are not modelled: `Stdlib.Apply` passes them to `Host.native`.
- `Function::run` and the interpreter's evaluation are outside these files. `map`'s user-function branch calls `Host.run` with the bound table.
- `to_number` and `to_set` on the other `Data` variants, and `UnsizedSet::len`, are the `Host` fields `toNumber`, `toSet` and `unsizedLen`. They take no variable, function or registry table: every call within one evaluation sees the same tables, because the nested closure calls at src/standardlibrary.rs:146-151 pass clones of the tables `map` itself received, so the `Context` fixes them.
- Tokens.New: the number payload is the literal's exact value, with no f32 rounding, no overflow to infinity and no limit on digits.
- Tokens.NumberRoundTrip: holds for the exact-decimal payload only. With the f32, a numeral beyond f32's range parses to infinity, prints as "inf" and comes back as an identifier.
- Tokens.TokenRoundTrip: holds for the exact-decimal payload only, for the same reason as `Tokens.NumberRoundTrip`.
- Tokens.SameNumeralSameToken, Tokens.TrailingZeroInFraction and Tokens.LeadingZero: state the "if" direction only. With the f32, literals of different values can also become one token ("16777217" and "16777216"), which the exact payload keeps apart.
- Numerals.Show: prints that exact value. f32's shortest round-trip digits, which can differ from the literal's digits, are not modelled.
- Numbers in `Data` are exact reals. f32 rounding in `sum`, `product` and `len`'s `as f32` is not modelled, and the sum and product lemmas are about exact arithmetic.
- A table entry under the empty name is excluded by the `Registry` type. `init_std` never inserts one, and excluding it keeps `map`'s recursion through the registry well founded.
- Values.AsIndex: assumes a 64-bit `usize`. NaN and infinite indices are not covered, since `Data` numbers are reals.
- StdlibProperties.GetAfterSet, StdlibProperties.GetAfterSetElsewhere and StdlibProperties.SetThenRemove: require the set to be shorter than the largest `usize`, so that every index in it is a whole number the cast keeps.
- Library.StandardLibrary.InitStd: the closures' captured code is represented by the `Builtin` tags, and the HashMap is a Dafny `map`, so iteration order does not exist.
- Library.StdTableNames: gives the 19 names as a set; their count is not stated as a separate lemma.
- The `data` directory of the interpreter is not part of this model.
