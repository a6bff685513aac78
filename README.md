# The LTTng backend of Qt's tracepoint generator, in Dafny

`tracegen` reads a tracepoint description for a tracing provider and writes a
C/C++ header for one of several tracing backends. This project models the
LTTng backend, `src/tools/tracegen/lttng.cpp`. From a `Provider` it writes one
header made of three parts:

- a **prologue**: the `TRACEPOINT_PROVIDER` macro, a once-only block holding
  the Qt headers and the provider's prefix text, and the opening of the
  multi-read block that LTTng requires. The prologue also defines the
  `TRACEPOINT_INCLUDE` name and the `<guard>_USE_NAMESPACE` block.
- for every tracepoint, **a `TRACEPOINT_EVENT` declaration**. Its `TP_ARGS`
  list holds the call-site parameters. Its `TP_FIELDS` list holds one CTF
  macro per field: `ctf_array`, `ctf_sequence`, `ctf_integer`,
  `ctf_integer_hex`, `ctf_float` or `ctf_string`. A Qt rectangle or size
  expands into several `ctf_integer` macros. Each declaration is followed by
  a **wrapper block** with the inline functions `trace_X`, `do_trace_X` and
  `trace_X_enabled`, inside an `#ifndef TP_<PROVIDER>_<X>` guard.
- an **epilogue**: it closes the multi-read block and includes LTTng's event
  header and Qt's private trace header.

Modules:

- `Tracegen` (`tracegen.dfy`): the records the generator reads, which are
  `Provider`, `Tracepoint`, `Argument` and `Field`, and the thirteen field
  kinds.
- `Lttng` (`lttng.dfy`): the backend. Each `write…` function of the source
  gets two members:
  - a specification function for the text it appends: `CtfMacro`,
    `EventBlock`, `Wrapper`, `TracepointText`, `TracepointsText`, `Prologue`,
    `Epilogue` and `Header`;
  - where the source loops, a method that builds the text step by step, the
    way the stream is written (`WriteArgs`, `WriteFields`, `WriteTracepoint`,
    `WriteTracepoints`, `WriteLttng`). Each method is proved to produce
    exactly its specification function's text.

  The output stream is a `string` that each method extends. The field switch
  of `writeCtfMacro` is modelled in two steps. `CtfEncoding` is a structured
  value: the macro's name and its arguments. `Render` turns that value into
  text.
- `LttngProperties` (`lttng_properties.dfy`) holds the properties of the
  header as lemmas:
  - the exact declaration text of every field kind;
  - the separators in `TP_ARGS` and `TP_FIELDS`;
  - the shape and use of the include guard, the wrapper guard and the
    namespace guard;
  - where the prefix text is placed;
  - the order of the blocks;
  - the failure on the first field whose CTF type is unknown;
  - that the output file name only affects the prologue and the epilogue.
- `Text` (`text.dfy`): string concatenation and joining, occurrence and
  ordering of substrings, decimal formatting of an `int`, and ASCII
  upper-casing.
- `Wrappers` (`wrappers.dfy`): `Option`, `Result`, and `AllOk`, which
  collects a sequence of results and stops at the first failure.

A field of kind `Unknown` makes the generator abort with "Cannot deduce CTF
type for '<type> <name>'". In the model this is the error value
`CannotDeduceCtfType(paramType, name)`. It reaches every level above: the
event declaration, the tracepoint blocks and the whole header.

The wrapper guard is the upper-cased `TP_<provider>_<tracepoint>`. So two
tracepoints of one provider whose names differ only in letter case get the
same guard. The same happens to provider and tracepoint names whose join at
`_` is the same. `LttngProperties.WrapperGuardIgnoresCase` and
`LttngProperties.WrapperGuardIgnoresSplit` prove this for all names, and
`LttngProperties.WrapperGuardCollisions` gives an example of each. In such a header the second wrapper block is skipped by the
preprocessor.

## Model

| member | source | states |
|---|---|---|
| Lttng.Message | src/tools/tracegen/lttng.cpp:69-70 | the abort message starts with "Cannot deduce CTF type for '", carries the field's parameter type, a space and its name, and ends with the closing `'` and nothing after it |
| Lttng.CtfMacro | src/tools/tracegen/lttng.cpp:22-72 | declaring a field fails exactly when its kind is `Unknown`; the failure carries that field's parameter type and name |
| LttngProperties.PointerIsIntegerHex | src/tools/tracegen/lttng.cpp:35-38 | a pointer field is declared exactly as the same field of kind IntegerHex would be: `ctf_integer_hex(type, name, name)` |
| LttngProperties.ArrayLengthIsLastArgument | src/tools/tracegen/lttng.cpp:23-26 | an array is `ctf_array(type, name, name, len)`; its fourth and last argument is the element count in decimal, and reading it back gives the count |
| LttngProperties.SequenceLengthArguments | src/tools/tracegen/lttng.cpp:27-31 | a sequence is one `ctf_sequence` macro with five arguments; the length type `unsigned int` comes fourth and the length expression fifth |
| LttngProperties.RectExpandsToFourIntegers | src/tools/tracegen/lttng.cpp:58-63 | a rectangle becomes exactly four `ctf_integer(int, …)` parts, for x, y, width and height in that order, each followed by a space |
| LttngProperties.SizeExpandsToTwoIntegers | src/tools/tracegen/lttng.cpp:64-67 | a size becomes exactly two integer parts, width then height |
| LttngProperties.ArrayDeclaration | src/tools/tracegen/lttng.cpp:23-26 | the text of an array field's declaration, for any type, name and length |
| LttngProperties.SequenceDeclaration | src/tools/tracegen/lttng.cpp:27-31 | the text of a sequence field's declaration, for any type, name and length expression |
| LttngProperties.ScalarDeclaration | src/tools/tracegen/lttng.cpp:32-41 | the text `macro(type, name, name)` of integer, hexadecimal, pointer and floating-point fields, with each kind's macro name |
| LttngProperties.StringDeclaration | src/tools/tracegen/lttng.cpp:42-44 | the text `ctf_string(name, name)` of a string field |
| LttngProperties.QtStringDeclaration | src/tools/tracegen/lttng.cpp:45-48 | a QString field is a `const ushort` sequence over `name.utf16()` whose length is `name.size()` |
| LttngProperties.QtByteArrayDeclaration | src/tools/tracegen/lttng.cpp:49-52 | a QByteArray field is a `const char` sequence over `name.constData()` whose length is `name.size()` |
| LttngProperties.QtUrlDeclaration | src/tools/tracegen/lttng.cpp:53-57 | a QUrl field is a `const char` sequence over its encoded form, `name.toEncoded()` |
| LttngProperties.QtRectDeclaration | src/tools/tracegen/lttng.cpp:58-63 | the text of the four integer parts of a rectangle |
| LttngProperties.QtSizeDeclaration | src/tools/tracegen/lttng.cpp:64-67 | the text of the two integer parts of a size |
| Lttng.WriteArgs | src/tools/tracegen/lttng.cpp:162-167 | the argument loop writes the arguments' `type, name` texts joined by ", " |
| Lttng.WriteFields | src/tools/tracegen/lttng.cpp:172-178 | the field loop writes the field macros joined by the field separator; at the first field of kind `Unknown` it returns that field's failure |
| Lttng.WriteTracepoint | src/tools/tracegen/lttng.cpp:154-181 | the method appends exactly the event declaration, or fails as it does |
| LttngProperties.EventBlockLayout | src/tools/tracegen/lttng.cpp:157-180 | the event declaration is made of five parts in order: the head, the interleaved arguments, the `TP_FIELDS` opening, the field macros in field order, and the closing |
| LttngProperties.ArgumentSeparatorPlacement | src/tools/tracegen/lttng.cpp:162-167 | in `TP_ARGS` every argument appears in order as `type, name`, with one ", " between neighbours and none before the first or after the last |
| LttngProperties.FieldSeparatorPlacement | src/tools/tracegen/lttng.cpp:172-178 | consecutive field macros are separated by exactly one newline-and-indent, with none before the first and none after the last |
| LttngProperties.EventBlockFailsAtFirstUnknown | src/tools/tracegen/lttng.cpp:174-178 | the event declaration fails exactly when some field is `Unknown`; the failure names the first such field |
| LttngProperties.WrapperGuardShape | src/tools/tracegen/lttng.cpp:123 | the wrapper guard starts with `TP_`, contains no lower-case letter, and is as long as the raw `TP_<provider>_<name>` |
| LttngProperties.WrapperGuardUsage | src/tools/tracegen/lttng.cpp:128-151 | the block tests the guard with `#ifndef` right after its leading newline and defines it with `#define` on the very next line; the block ends with `#endif // guard` |
| LttngProperties.WrapperForwarding | src/tools/tracegen/lttng.cpp:134-139 | `trace_X` is declared with the function signature and forwards to `tracepoint(provider, X<paramList>)`; `do_trace_X` comes after it |
| LttngProperties.WrapperDoTraceForwarding | src/tools/tracegen/lttng.cpp:139-142 | `do_trace_X` has the same signature and forwards the same parameter list to `do_tracepoint` |
| LttngProperties.WrapperEnabledCheck | src/tools/tracegen/lttng.cpp:141-146 | `trace_X_enabled` follows the forwarding wrappers and asks `tracepoint_enabled(provider, X)` |
| LttngProperties.WrapperGuardIgnoresCase | src/tools/tracegen/lttng.cpp:123 | any two tracepoint names with the same upper-case form get the same wrapper guard within a provider |
| LttngProperties.WrapperGuardIgnoresSplit | src/tools/tracegen/lttng.cpp:123 | any two provider and tracepoint name pairs whose join at `_` is the same get the same wrapper guard |
| LttngProperties.WrapperGuardCollisions | src/tools/tracegen/lttng.cpp:123 | an example of each: `start` and `Start`, and `a_b`+`c` against `a`+`b_c`, give equal guards |
| Lttng.WriteTracepointAndWrapper | src/tools/tracegen/lttng.cpp:186-187 | one loop step appends that tracepoint's event declaration and then its wrappers, or fails as the declaration fails |
| Lttng.WriteTracepoints | src/tools/tracegen/lttng.cpp:183-189 | the loop appends every tracepoint's blocks in provider order, or stops at the first tracepoint that fails |
| LttngProperties.TracepointsLayout | src/tools/tracegen/lttng.cpp:185-188 | on success the tracepoint part is, in provider order, each event declaration immediately followed by that tracepoint's wrappers |
| LttngProperties.TracepointTextFails | src/tools/tracegen/lttng.cpp:186-187 | one tracepoint's blocks fail exactly when it has an `Unknown` field, with the failure of its event declaration |
| LttngProperties.TracepointsFailAtFirstUnknown | src/tools/tracegen/lttng.cpp:185-188 | the tracepoint part fails exactly when some tracepoint has an `Unknown` field, with the failure of the first such tracepoint |
| LttngProperties.PrologueFileGuard | src/tools/tracegen/lttng.cpp:77-94 | the prologue starts by undefining `TRACEPOINT_PROVIDER`, then names the provider. It opens the once-only block with `#if !defined(guard)`, then the multi-read block with the same guard |
| LttngProperties.PrologueMultiReadBlock | src/tools/tracegen/lttng.cpp:94-98 | inside the multi-read block the guard is defined first, and then the header names itself in `TRACEPOINT_INCLUDE` |
| LttngProperties.PrologueNamespaceGuard | src/tools/tracegen/lttng.cpp:100-106 | the namespace guard is the include guard followed by `_USE_NAMESPACE`. After `<lttng/tracepoint.h>` it is tested, defined and closed, in that order, and closing it ends the prologue |
| LttngProperties.PrefixTextOnlyWhenPresent | src/tools/tracegen/lttng.cpp:87-88 | the prologue differs from the prologue without prefix text exactly when the provider has prefix lines, and then it is longer by exactly the prefix block |
| LttngProperties.PrefixTextPlacement | src/tools/tracegen/lttng.cpp:84-89 | the prologue is the prologue without prefix text, with the prefix block inserted right after the Qt headers and their newline and right before the once-only `#endif` |
| Lttng.CtfEncoding | src/tools/tracegen/lttng.cpp:22-72 | definition of the switch over field kinds as a macro name and arguments; no encoding exactly for `Unknown`; characterised by the per-kind …Declaration lemmas |
| Lttng.EventBlock | src/tools/tracegen/lttng.cpp:154-181 | definition of the text writeTracepoint appends; characterised by EventBlockLayout and EventBlockFailsAtFirstUnknown |
| Lttng.WrapperGuard | src/tools/tracegen/lttng.cpp:123 | definition of the wrapper guard; as long as `TP_<provider>_<name>`; characterised by WrapperGuardShape and WrapperGuardIgnoresCase/Split |
| Lttng.WrapperLines | src/tools/tracegen/lttng.cpp:128-151 | definition: the lines writeWrapper writes, in order; characterised by WrapperGuardUsage, WrapperForwarding, WrapperDoTraceForwarding and WrapperEnabledCheck |
| Lttng.Wrapper | src/tools/tracegen/lttng.cpp:117-152 | definition of the text writeWrapper appends, the concatenation of WrapperLines; characterised by the Wrapper… lemmas |
| Lttng.TracepointText | src/tools/tracegen/lttng.cpp:186-187 | definition of one loop step's text, the event declaration then the wrapper; characterised by TracepointTextFails and TracepointsLayout |
| Lttng.TracepointsText | src/tools/tracegen/lttng.cpp:183-189 | definition of the text writeTracepoints appends; characterised by TracepointsLayout and TracepointsFailAtFirstUnknown |
| Lttng.PrefixBlock | src/tools/tracegen/lttng.cpp:87-88 | definition of the prefix text written; empty exactly when the provider has no prefix lines; characterised by PrefixTextPlacement and PrefixTextOnlyWhenPresent |
| Lttng.PrologueLines | src/tools/tracegen/lttng.cpp:77-106 | definition: the lines writePrologue writes, in order; characterised by the Prologue… lemmas |
| Lttng.Prologue | src/tools/tracegen/lttng.cpp:75-107 | definition of the text writePrologue writes, the concatenation of PrologueLines; characterised by PrologueFileGuard, PrologueMultiReadBlock, PrologueNamespaceGuard and PrefixTextPlacement |
| Lttng.Epilogue | src/tools/tracegen/lttng.cpp:109-115 | definition of the text writeEpilogue writes; characterised by FileGuardBalanced |
| Lttng.Header | src/tools/tracegen/lttng.cpp:191-200 | definition of the whole header; characterised by LttngLayout, LttngFailsAtFirstUnknown, FileGuardBalanced and BodyIndependentOfFileName |
| Lttng.WriteLttng | src/tools/tracegen/lttng.cpp:191-200 | the prologue, the tracepoints and the epilogue, written on a fresh stream, give exactly the header or its failure |
| LttngProperties.LttngLayout | src/tools/tracegen/lttng.cpp:197-199 | on success the header is the prologue, then each tracepoint's declaration and wrappers in provider order, then the epilogue |
| LttngProperties.LttngFailsAtFirstUnknown | src/tools/tracegen/lttng.cpp:191-200 | generation fails exactly when some tracepoint has an `Unknown` field; it fails with the diagnostic of the first such tracepoint |
| LttngProperties.FileGuardBalanced | src/tools/tracegen/lttng.cpp:94-114 | the multi-read block opened in the prologue is defined there. The header ends with its `#endif // guard` and the two trailing includes |
| LttngProperties.BodyIndependentOfFileName | src/tools/tracegen/lttng.cpp:195-199 | the file name decides neither whether generation succeeds nor the text between prologue and epilogue |
| Text.DecimalRoundTrip | src/tools/tracegen/lttng.cpp:25 | the decimal text of an array length reads back as that length, negative lengths included |
| Text.AsciiUpperProperties | src/tools/tracegen/lttng.cpp:123 | upper-casing keeps the length, leaves no lower-case letter, keeps every other character and is idempotent |
| Text.JoinIsInterleaving | src/tools/tracegen/lttng.cpp:162-178 | writing a separator before every item but the first gives the items interleaved with single separators |
| Wrappers.AllOkFirstFailure | src/tools/tracegen/lttng.cpp:174-178 | when a run of results stops at its first failure, the collection fails with that failure's error |

## Left out

- Files and streams: `QFile`, `QTextStream` and `QFileInfo` are not modelled. The output is a `string`, and `WriteLttng` takes the file's base name as a string.
- `includeGuard`, `formatFunctionSignature`, `formatParameterList(…, LTTNG)` and `qtHeaders` are defined in other files (`helpers.cpp`, `qtheaders.cpp`), which are not part of this model. They are inputs: the function-valued fields of `Lttng.Helpers`.
- The abort itself, `justified_worry` from `panic.h`: the model returns an error value and produces no header. It does not model that the process ends, nor the text written before the abort.
- Lttng.CtfMacro: the `Unknown` case states only the error value and not the formatted message; `Lttng.Message` gives that message on its own.
- Lttng.WrapperGuard: `toUpper` is modelled as ASCII upper-casing. Unicode case mapping of non-ASCII letters is not modelled.
- Lttng.WrapperGuard: `QStringLiteral("TP_%1_%2").arg(provider).arg(name)` is modelled as plain concatenation. This differs from `QString::arg` only when the provider name itself contains a `%` placeholder, which a C identifier cannot.
- Text.Decimal: an `int` is written as `QTextStream` writes it by default, as plain decimal with a leading `-` when negative. The model's integers are unbounded, and the source's `int` is 32 bits wide. No width-related behaviour arises here, because the value is only formatted.
- The rest of tracegen is not part of this model: the parser of provider files, the choice of backend, the other backends, and the command-line driver with its exit status.
