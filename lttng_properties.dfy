/** What the LTTng backend promises about the header it writes: how each kind
    of field is declared, where the separators go, that the guards match, and
    the order of the blocks. */
module LttngProperties {
  import opened Wrappers
  import opened Text
  import opened Tracegen
  import opened Lttng

  // ----- fields -----

  /** A pointer field is declared exactly like a hexadecimal integer field:
      `ctf_integer_hex(paramType, name, name)`. */
  lemma PointerIsIntegerHex(f: Field)
    requires f.backendType == Pointer
    ensures CtfMacro(f) == CtfMacro(f.(backendType := IntegerHex))
    ensures CtfMacro(f) == Ok(RenderMacro(Macro("ctf_integer_hex", [f.paramType, f.name, f.name])))
  {
  }

  /** An array field's last macro argument is its element count in decimal, from
      which the count can be read back. */
  lemma ArrayLengthIsLastArgument(f: Field)
    requires f.backendType == Array
    ensures var m := Macro("ctf_array", [f.paramType, f.name, f.name, Decimal(f.arrayLen)]);
      CtfEncoding(f) == Some(Single(m)) && CtfMacro(f) == Ok(RenderMacro(m))
    ensures DecimalValue(CtfEncoding(f).value.macro.args[3]) == f.arrayLen
  {
    DecimalRoundTrip(f.arrayLen);
  }

  /** A sequence field's length is typed `unsigned int` and read from the
      field's length expression, the last two macro arguments. */
  lemma SequenceLengthArguments(f: Field)
    requires f.backendType == Sequence
    ensures CtfEncoding(f).Some? && CtfEncoding(f).value.Single?
    ensures var m := CtfEncoding(f).value.macro;
      m.name == "ctf_sequence" && |m.args| == 5 && m.args[0] == f.paramType
      && m.args[3] == "unsigned int" && m.args[4] == f.seqLen
  {
  }

  /** A rectangle becomes exactly four integer fields, x, y, width and height in
      that order, each `ctf_integer(int, accessor, name.accessor()) `. */
  lemma RectExpandsToFourIntegers(f: Field)
    requires f.backendType == QtRect
    ensures CtfEncoding(f).Some? && CtfEncoding(f).value.Composite?
    ensures var ms := CtfEncoding(f).value.parts;
      |ms| == 4 && forall i :: 0 <= i < 4 ==> ms[i] == IntegerOf(f.name, ["x", "y", "width", "height"][i])
    ensures CtfMacro(f) == Ok(IntegerPart(f.name, "x") + IntegerPart(f.name, "y")
                              + IntegerPart(f.name, "width") + IntegerPart(f.name, "height"))
  {
    var n := f.name;
    assert IntegersOf(n, RectAccessors) == [IntegerOf(n, "x"), IntegerOf(n, "y"), IntegerOf(n, "width"), IntegerOf(n, "height")];
    RenderFourParts(IntegerOf(n, "x"), IntegerOf(n, "y"), IntegerOf(n, "width"), IntegerOf(n, "height"));
    IntegerPartText(n, "x");
    IntegerPartText(n, "y");
    IntegerPartText(n, "width");
    IntegerPartText(n, "height");
  }

  /** A size becomes exactly two integer fields, width then height. */
  lemma SizeExpandsToTwoIntegers(f: Field)
    requires f.backendType == QtSize
    ensures CtfEncoding(f).Some? && CtfEncoding(f).value.Composite?
    ensures var ms := CtfEncoding(f).value.parts;
      |ms| == 2 && forall i :: 0 <= i < 2 ==> ms[i] == IntegerOf(f.name, ["width", "height"][i])
    ensures CtfMacro(f) == Ok(IntegerPart(f.name, "width") + IntegerPart(f.name, "height"))
  {
    var n := f.name;
    assert IntegersOf(n, SizeAccessors) == [IntegerOf(n, "width"), IntegerOf(n, "height")];
    RenderTwoParts(IntegerOf(n, "width"), IntegerOf(n, "height"));
    IntegerPartText(n, "width");
    IntegerPartText(n, "height");
  }

  /** The text of one integer part of a rectangle or size, with the space that
      follows it, as the generator spells it. */
  function IntegerPart(name: string, accessor: string): string
  {
    "ctf_integer(int, " + accessor + ", " + name + "." + accessor + "()) "
  }

  lemma IntegerPartText(name: string, accessor: string)
    ensures RenderMacro(IntegerOf(name, accessor)) + " " == IntegerPart(name, accessor)
  {
    var call := name + "." + accessor + "()";
    JoinFew("int", accessor, call, "", "", ", ");
    IntegerPartSpelling(name, accessor);
  }

  lemma IntegerPartSpelling(name: string, accessor: string)
    ensures "ctf_integer" + "(" + ("int" + ", " + accessor + ", " + (name + "." + accessor + "()")) + ")" + " "
         == IntegerPart(name, accessor)
  {
  }

  lemma RenderTwoParts(m0: Macro, m1: Macro)
    ensures RenderParts([m0, m1]) == (RenderMacro(m0) + " ") + (RenderMacro(m1) + " ")
  {
    assert [m0, m1][1..] == [m1];
    assert [m1][1..] == [];
    assert RenderParts([m1]) == RenderMacro(m1) + " " + "";
  }

  lemma RenderFourParts(m0: Macro, m1: Macro, m2: Macro, m3: Macro)
    ensures RenderParts([m0, m1, m2, m3])
         == (RenderMacro(m0) + " ") + (RenderMacro(m1) + " ") + (RenderMacro(m2) + " ") + (RenderMacro(m3) + " ")
  {
    assert [m0, m1, m2, m3][1..] == [m1, m2, m3];
    assert [m1, m2, m3][1..] == [m2, m3];
    RenderTwoParts(m2, m3);
    var a, b, c, d := RenderMacro(m0) + " ", RenderMacro(m1) + " ", RenderMacro(m2) + " ", RenderMacro(m3) + " ";
    assert RenderParts([m0, m1, m2, m3]) == a + (b + (c + d));
    AppendAssoc(b, c, d);
    AppendAssoc(a, b + c, d);
    AppendAssoc(a, b, c);
  }

  // The declaration of each kind of field, character for character as the
  // generator writes it, for any parameter type, name and length.
  // The helper lemmas `…Text`, `IntegerPartSpelling`, `Regroup` and
  // `AccessorParts` below only regroup string literals; they state no property
  // of the generator and are there to keep each proof step small.

  lemma ArrayDeclaration(f: Field)
    requires f.backendType == Array
    ensures CtfMacro(f) == Ok("ctf_array(" + f.paramType + ", " + f.name + ", " + f.name + ", "
                              + Decimal(f.arrayLen) + ")")
  {
    var t, n, len := f.paramType, f.name, Decimal(f.arrayLen);
    JoinFew(t, n, n, len, "", ", ");
    assert CtfMacro(f) == Ok("ctf_array" + "(" + (t + ", " + n + ", " + n + ", " + len) + ")");
    ArrayText(t, n, len);
  }

  lemma SequenceDeclaration(f: Field)
    requires f.backendType == Sequence
    ensures CtfMacro(f) == Ok("ctf_sequence(" + f.paramType + ", " + f.name + ", " + f.name
                              + ", unsigned int, " + f.seqLen + ")")
  {
    var t, n, len := f.paramType, f.name, f.seqLen;
    JoinFew(t, n, n, "unsigned int", len, ", ");
    assert CtfMacro(f) == Ok("ctf_sequence" + "(" + (t + ", " + n + ", " + n + ", " + "unsigned int" + ", " + len) + ")");
    SequenceText(t, n, len);
  }

  /** Integer, hexadecimal integer, pointer and floating-point fields share one
      shape: `macro(paramType, name, name)`. */
  lemma ScalarDeclaration(f: Field)
    requires f.backendType in {Integer, IntegerHex, Pointer, Float}
    ensures var macroName :=
      match f.backendType
      case Integer => "ctf_integer"
      case Float => "ctf_float"
      case _ => "ctf_integer_hex";
      CtfMacro(f) == Ok(macroName + "(" + f.paramType + ", " + f.name + ", " + f.name + ")")
  {
    var t, n := f.paramType, f.name;
    JoinFew(t, n, n, "", "", ", ");
    var m := CtfEncoding(f).value.macro;
    assert CtfMacro(f) == Ok(m.name + "(" + (t + ", " + n + ", " + n) + ")");
    ScalarText(m.name, t, n);
  }

  lemma StringDeclaration(f: Field)
    requires f.backendType == String
    ensures CtfMacro(f) == Ok("ctf_string(" + f.name + ", " + f.name + ")")
  {
    var n := f.name;
    JoinFew(n, n, "", "", "", ", ");
    assert CtfMacro(f) == Ok("ctf_string" + "(" + (n + ", " + n) + ")");
    StringText(n);
  }

  lemma QtStringDeclaration(f: Field)
    requires f.backendType == QtString
    ensures CtfMacro(f) == Ok("ctf_sequence(const ushort, " + f.name + ", " + f.name
                              + ".utf16(), unsigned int, " + f.name + ".size())")
  {
    var n := f.name;
    JoinFew("const ushort", n, n + ".utf16()", "unsigned int", n + ".size()", ", ");
    assert CtfMacro(f) == Ok("ctf_sequence" + "(" + ("const ushort" + ", " + n + ", " + (n + ".utf16()") + ", " + "unsigned int" + ", " + (n + ".size()")) + ")");
    QtStringText(n);
  }

  lemma QtByteArrayDeclaration(f: Field)
    requires f.backendType == QtByteArray
    ensures CtfMacro(f) == Ok("ctf_sequence(const char, " + f.name + ", " + f.name
                              + ".constData(), unsigned int, " + f.name + ".size())")
  {
    var n := f.name;
    JoinFew("const char", n, n + ".constData()", "unsigned int", n + ".size()", ", ");
    assert CtfMacro(f) == Ok("ctf_sequence" + "(" + ("const char" + ", " + n + ", " + (n + ".constData()") + ", " + "unsigned int" + ", " + (n + ".size()")) + ")");
    QtByteArrayText(n);
  }

  lemma QtUrlDeclaration(f: Field)
    requires f.backendType == QtUrl
    ensures CtfMacro(f) == Ok("ctf_sequence(const char, " + f.name + ", " + f.name
                              + ".toEncoded().constData(), unsigned int, " + f.name + ".toEncoded().size())")
  {
    var n := f.name;
    JoinFew("const char", n, n + ".toEncoded().constData()", "unsigned int", n + ".toEncoded().size()", ", ");
    assert CtfMacro(f) == Ok("ctf_sequence" + "(" + ("const char" + ", " + n + ", " + (n + ".toEncoded().constData()") + ", " + "unsigned int" + ", " + (n + ".toEncoded().size()")) + ")");
    QtUrlText(n);
  }

  lemma ArrayText(t: string, n: string, len: string)
    ensures "ctf_array" + "(" + (t + ", " + n + ", " + n + ", " + len) + ")"
         == "ctf_array(" + t + ", " + n + ", " + n + ", " + len + ")"
  {
  }

  lemma SequenceText(t: string, n: string, len: string)
    ensures "ctf_sequence" + "(" + (t + ", " + n + ", " + n + ", " + "unsigned int" + ", " + len) + ")"
         == "ctf_sequence(" + t + ", " + n + ", " + n + ", unsigned int, " + len + ")"
  {
  }

  lemma StringText(n: string)
    ensures "ctf_string" + "(" + (n + ", " + n) + ")"
         == "ctf_string(" + n + ", " + n + ")"
  {
  }

  lemma ScalarText(macro: string, t: string, n: string)
    ensures macro + "(" + (t + ", " + n + ", " + n) + ")" == macro + "(" + t + ", " + n + ", " + n + ")"
  {
  }

  lemma QtStringText(n: string)
    ensures "ctf_sequence" + "(" + ("const ushort" + ", " + n + ", " + (n + ".utf16()") + ", " + "unsigned int" + ", " + (n + ".size()")) + ")"
         == "ctf_sequence(const ushort, " + n + ", " + n + ".utf16(), unsigned int, " + n + ".size())"
  {
    Regroup("ctf_sequence", "const ushort", "unsigned int", n, ".utf16()", ".size()");
    assert "ctf_sequence" + "(" + "const ushort" + ", " == "ctf_sequence(const ushort, ";
    assert ".utf16()" + ", " + "unsigned int" + ", " == ".utf16(), unsigned int, ";
    assert ".size()" + ")" == ".size())";
  }

  lemma QtByteArrayText(n: string)
    ensures "ctf_sequence" + "(" + ("const char" + ", " + n + ", " + (n + ".constData()") + ", " + "unsigned int" + ", " + (n + ".size()")) + ")"
         == "ctf_sequence(const char, " + n + ", " + n + ".constData(), unsigned int, " + n + ".size())"
  {
    Regroup("ctf_sequence", "const char", "unsigned int", n, ".constData()", ".size()");
    assert "ctf_sequence" + "(" + "const char" + ", " == "ctf_sequence(const char, ";
    assert ".constData()" + ", " + "unsigned int" + ", " == ".constData(), unsigned int, ";
    assert ".size()" + ")" == ".size())";
  }

  lemma QtUrlText(n: string)
    ensures "ctf_sequence" + "(" + ("const char" + ", " + n + ", " + (n + ".toEncoded().constData()") + ", " + "unsigned int" + ", " + (n + ".toEncoded().size()")) + ")"
         == "ctf_sequence(const char, " + n + ", " + n + ".toEncoded().constData(), unsigned int, " + n + ".toEncoded().size())"
  {
    Regroup("ctf_sequence", "const char", "unsigned int", n, ".toEncoded().constData()", ".toEncoded().size()");
    assert "ctf_sequence" + "(" + "const char" + ", " == "ctf_sequence(const char, ";
    assert ".toEncoded().constData()" + ", " + "unsigned int" + ", " == ".toEncoded().constData(), unsigned int, ";
    assert ".toEncoded().size()" + ")" == ".toEncoded().size())";
  }

  /** Moves the parentheses of a rendered five-argument macro whose third and
      fifth arguments are read through the field's name. */
  lemma Regroup(macro: string, t: string, lenType: string, n: string, data: string, size: string)
    ensures macro + "(" + (t + ", " + n + ", " + (n + data) + ", " + lenType + ", " + (n + size)) + ")"
         == (macro + "(" + t + ", ") + n + ", " + n + (data + ", " + lenType + ", ") + n + (size + ")")
  {
  }

  lemma QtRectDeclaration(f: Field)
    requires f.backendType == QtRect
    ensures CtfMacro(f) == Ok(("ctf_integer(int, x, " + f.name + ".x()) ")
                              + ("ctf_integer(int, y, " + f.name + ".y()) ")
                              + ("ctf_integer(int, width, " + f.name + ".width()) ")
                              + ("ctf_integer(int, height, " + f.name + ".height()) "))
  {
    RectExpandsToFourIntegers(f);
    AccessorParts(f.name);
  }

  lemma QtSizeDeclaration(f: Field)
    requires f.backendType == QtSize
    ensures CtfMacro(f) == Ok(("ctf_integer(int, width, " + f.name + ".width()) ")
                              + ("ctf_integer(int, height, " + f.name + ".height()) "))
  {
    SizeExpandsToTwoIntegers(f);
    AccessorParts(f.name);
  }

  lemma AccessorParts(n: string)
    ensures IntegerPart(n, "x") == "ctf_integer(int, x, " + n + ".x()) "
    ensures IntegerPart(n, "y") == "ctf_integer(int, y, " + n + ".y()) "
    ensures IntegerPart(n, "width") == "ctf_integer(int, width, " + n + ".width()) "
    ensures IntegerPart(n, "height") == "ctf_integer(int, height, " + n + ".height()) "
  {
  }

  // ----- one event declaration -----

  /** The event declaration is the head, the argument texts with one ", "
      between neighbours, the TP_FIELDS opening, the field macros, in field
      order, with one field separator between neighbours, and the closing. */
  lemma EventBlockLayout(t: Tracepoint, providerName: string)
    requires EventBlock(t, providerName).Ok?
    ensures exists macros: seq<string> ::
      |macros| == |t.fields|
      && (forall k :: 0 <= k < |t.fields| ==> CtfMacro(t.fields[k]) == Ok(macros[k]))
      && EventBlock(t, providerName).value
         == EventHead(t, providerName) + Concat(Interleaved(ArgTexts(t.args), ", ")) + FieldsOpen
            + Concat(Interleaved(macros, FieldSeparator)) + EventClose
  {
    var rs := FieldMacros(t.fields);
    var macros := AllOk(rs).value;
    forall k | 0 <= k < |t.fields|
      ensures CtfMacro(t.fields[k]) == Ok(macros[k])
    {
      assert rs[k] == CtfMacro(t.fields[k]);
    }
    JoinIsInterleaving(ArgTexts(t.args), ", ");
    JoinIsInterleaving(macros, FieldSeparator);
    assert EventBlock(t, providerName).value
         == EventHead(t, providerName) + Concat(Interleaved(ArgTexts(t.args), ", ")) + FieldsOpen
            + Concat(Interleaved(macros, FieldSeparator)) + EventClose;
  }

  /** In TP_ARGS every argument is written, in order, as `type, name`, with one
      ", " between neighbours, none before the first and none after the last. */
  lemma ArgumentSeparatorPlacement(args: seq<Argument>)
    ensures |args| > 0 ==> |Interleaved(ArgTexts(args), ", ")| == 2 * |args| - 1
    ensures forall i :: 0 <= i < |args| ==>
      Interleaved(ArgTexts(args), ", ")[2 * i] == args[i].typeName + ", " + args[i].name
    ensures forall i :: 0 <= i < |args| - 1 ==> Interleaved(ArgTexts(args), ", ")[2 * i + 1] == ", "
  {
    InterleavedShape(ArgTexts(args), ", ");
  }

  /** When every field is rendered, consecutive field macros are separated by
      exactly one field separator, none before the first and none after the last. */
  lemma FieldSeparatorPlacement(macros: seq<string>)
    ensures |macros| > 0 ==> |Interleaved(macros, FieldSeparator)| == 2 * |macros| - 1
    ensures forall i :: 0 <= i < |macros| ==> Interleaved(macros, FieldSeparator)[2 * i] == macros[i]
    ensures forall i :: 0 <= i < |macros| - 1 ==> Interleaved(macros, FieldSeparator)[2 * i + 1] == FieldSeparator
  {
    InterleavedShape(macros, FieldSeparator);
  }

  // ----- the wrapper block -----

  /** The wrapper guard is `TP_<provider>_<tracepoint>` upper-cased: it starts
      with `TP_`, has no lower-case letter and is as long as the raw token. */
  lemma WrapperGuardShape(providerName: string, name: string)
    ensures StartsWith(WrapperGuard(providerName, name), "TP_")
    ensures HasNoLowerCase(WrapperGuard(providerName, name))
    ensures |WrapperGuard(providerName, name)| == 4 + |providerName| + |name|
  {
    var raw := "TP_" + providerName + "_" + name;
    var guard := WrapperGuard(providerName, name);
    AsciiUpperProperties(raw);
    assert guard[..3] == "TP_" by {
      assert raw[0] == 'T' && raw[1] == 'P' && raw[2] == '_';
    }
  }

  /** The wrapper block opens with `#ifndef` of its guard right after a
      newline, `#define` of the guard on the next line, and is closed by
      `#endif` of the same guard. */
  lemma WrapperGuardUsage(h: Helpers, t: Tracepoint, providerName: string)
    ensures OccursAt("#ifndef " + WrapperGuard(providerName, t.name) + "\n", Wrapper(h, t, providerName), 1)
    ensures OccursAt("#define " + WrapperGuard(providerName, t.name) + "\n", Wrapper(h, t, providerName),
                     1 + |"#ifndef " + WrapperGuard(providerName, t.name) + "\n"|)
    ensures EndsWith(Wrapper(h, t, providerName), "#endif // " + WrapperGuard(providerName, t.name) + "\n\n")
  {
    var lines := WrapperLines(h, t, providerName);
    ChunkOccursAt(lines, 1);
    assert lines[..1] == ["\n"];
    assert Concat(lines[..1]) == "\n" by {
      ConcatAppend([], "\n");
    }
    ChunkOccursAt(lines, 2);
    assert lines[..2] == lines[..1] + [lines[1]];
    ConcatAppend(lines[..1], lines[1]);
    ConcatEndsWithLast(lines);
  }

  /** `trace_X` is declared with the tracepoint's signature and forwards to
      LTTng's `tracepoint` with the provider name, the tracepoint name and the
      parameter list; `do_trace_X` follows it. */
  lemma WrapperForwarding(h: Helpers, t: Tracepoint, providerName: string)
    ensures Precedes("inline void trace_" + t.name + "(" + h.functionSignature(t.args) + ")\n",
                     "    tracepoint(" + providerName + ", " + t.name + h.parameterList(t.args) + ");\n",
                     Wrapper(h, t, providerName))
    ensures Precedes("    tracepoint(" + providerName + ", " + t.name + h.parameterList(t.args) + ");\n",
                     "inline void do_trace_" + t.name + "(" + h.functionSignature(t.args) + ")\n",
                     Wrapper(h, t, providerName))
  {
    var lines := WrapperLines(h, t, providerName);
    ChunksPrecede(lines, 5, 7);
    ChunksPrecede(lines, 7, 9);
  }

  /** `do_trace_X` is declared with the same signature as `trace_X` and forwards
      to LTTng's `do_tracepoint` with the same names and parameter list. */
  lemma WrapperDoTraceForwarding(h: Helpers, t: Tracepoint, providerName: string)
    ensures Precedes("inline void do_trace_" + t.name + "(" + h.functionSignature(t.args) + ")\n",
                     "    do_tracepoint(" + providerName + ", " + t.name + h.parameterList(t.args) + ");\n",
                     Wrapper(h, t, providerName))
  {
    var lines := WrapperLines(h, t, providerName);
    ChunksPrecede(lines, 9, 11);
  }

  /** After the forwarding wrappers comes `trace_X_enabled`, which asks LTTng
      whether the provider's tracepoint is enabled. */
  lemma WrapperEnabledCheck(h: Helpers, t: Tracepoint, providerName: string)
    ensures Precedes("    do_tracepoint(" + providerName + ", " + t.name + h.parameterList(t.args) + ");\n",
                     "inline bool trace_" + t.name + "_enabled()\n",
                     Wrapper(h, t, providerName))
    ensures Precedes("inline bool trace_" + t.name + "_enabled()\n",
                     "    return tracepoint_enabled(" + providerName + ", " + t.name + ");\n",
                     Wrapper(h, t, providerName))
  {
    var lines := WrapperLines(h, t, providerName);
    ChunksPrecede(lines, 11, 13);
    ChunksPrecede(lines, 13, 15);
  }

  /** The wrapper guard does not tell apart tracepoint names that differ only
      in letter case ... */
  lemma WrapperGuardIgnoresCase(providerName: string, name1: string, name2: string)
    requires AsciiUpper(name1) == AsciiUpper(name2)
    ensures WrapperGuard(providerName, name1) == WrapperGuard(providerName, name2)
  {
    AsciiUpperConcat("TP_" + providerName + "_", name1);
    AsciiUpperConcat("TP_" + providerName + "_", name2);
  }

  /** ... nor provider and tracepoint names whose join at `_` is the same. */
  lemma WrapperGuardIgnoresSplit(providerName1: string, name1: string, providerName2: string, name2: string)
    requires providerName1 + "_" + name1 == providerName2 + "_" + name2
    ensures WrapperGuard(providerName1, name1) == WrapperGuard(providerName2, name2)
  {
    AppendAssoc("TP_", providerName1, "_");
    AppendAssoc("TP_", providerName1 + "_", name1);
    AppendAssoc("TP_", providerName2, "_");
    AppendAssoc("TP_", providerName2 + "_", name2);
  }

  /** Both collisions happen for names a provider could well declare. */
  lemma WrapperGuardCollisions()
    ensures WrapperGuard("app", "start") == WrapperGuard("app", "Start")
    ensures WrapperGuard("a_b", "c") == WrapperGuard("a", "b_c")
  {
    assert AsciiUpper("start") == "START" == AsciiUpper("Start");
    WrapperGuardIgnoresCase("app", "start", "Start");
    assert "a_b" + "_" + "c" == "a" + "_" + "b_c";
    WrapperGuardIgnoresSplit("a_b", "c", "a", "b_c");
  }

  // ----- prologue -----

  /** The prologue first names the provider, then opens the once-only block
      with the file's include guard, then opens the multi-read block with the
      same guard. */
  lemma PrologueFileGuard(h: Helpers, fileName: string, p: Provider)
    ensures StartsWith(Prologue(h, fileName, p), "#undef TRACEPOINT_PROVIDER\n")
    ensures Precedes("#define TRACEPOINT_PROVIDER " + p.name + "\n",
                     "#if !defined(" + h.includeGuard(fileName) + ")\n",
                     Prologue(h, fileName, p))
    ensures Precedes("#if !defined(" + h.includeGuard(fileName) + ")\n",
                     "#if !defined(" + h.includeGuard(fileName) + ") || defined(TRACEPOINT_HEADER_MULTI_READ)\n",
                     Prologue(h, fileName, p))
  {
    var lines := PrologueLines(h, fileName, p);
    ConcatStartsWithFirst(lines);
    ChunksPrecede(lines, 1, 3);
    ChunksPrecede(lines, 3, 8);
  }

  /** Inside the multi-read block the include guard is defined first, and only
      then is this header named as the one LTTng includes again. */
  lemma PrologueMultiReadBlock(h: Helpers, fileName: string, p: Provider)
    ensures Precedes("#if !defined(" + h.includeGuard(fileName) + ") || defined(TRACEPOINT_HEADER_MULTI_READ)\n",
                     "#define " + h.includeGuard(fileName) + "\n\n",
                     Prologue(h, fileName, p))
    ensures Precedes("#define " + h.includeGuard(fileName) + "\n\n",
                     "#define TRACEPOINT_INCLUDE \"" + fileName + "\"\n\n",
                     Prologue(h, fileName, p))
  {
    var lines := PrologueLines(h, fileName, p);
    ChunksPrecede(lines, 8, 9);
    ChunksPrecede(lines, 9, 11);
  }

  /** The namespace guard is the include guard followed by `_USE_NAMESPACE`; it
      is tested, defined and closed, in that order, after LTTng's tracepoint
      header is included, and its `#endif` ends the prologue. */
  lemma PrologueNamespaceGuard(h: Helpers, fileName: string, p: Provider)
    ensures var guard := h.includeGuard(fileName);
      StartsWith(NamespaceGuard(guard), guard) && EndsWith(NamespaceGuard(guard), "_USE_NAMESPACE")
      && |NamespaceGuard(guard)| == |guard| + 14
    ensures var ns := NamespaceGuard(h.includeGuard(fileName));
      Precedes("#include <lttng/tracepoint.h>\n\n", "#if !defined(" + ns + ")\n", Prologue(h, fileName, p))
    ensures var ns := NamespaceGuard(h.includeGuard(fileName));
      Precedes("#if !defined(" + ns + ")\n", "#define " + ns + "\n", Prologue(h, fileName, p))
    ensures var ns := NamespaceGuard(h.includeGuard(fileName));
      Precedes("#define " + ns + "\n", "#endif // " + ns + "\n\n", Prologue(h, fileName, p))
    ensures var ns := NamespaceGuard(h.includeGuard(fileName));
      EndsWith(Prologue(h, fileName, p), "#endif // " + ns + "\n\n")
  {
    var guard := h.includeGuard(fileName);
    EndsWithAppend(guard, "_USE_NAMESPACE");
    var lines := PrologueLines(h, fileName, p);
    ChunksPrecede(lines, 12, 13);
    ChunksPrecede(lines, 13, 14);
    ChunksPrecede(lines, 14, 16);
    assert lines[..16] + [lines[16]] == lines;
    ConcatAppend(lines[..16], lines[16]);
    EndsWithAppend(Concat(lines[..16]), lines[16]);
  }

  /** Prefix text changes the prologue exactly when the provider has prefix
      lines, and then only by adding the prefix block to it. */
  lemma PrefixTextOnlyWhenPresent(h: Helpers, fileName: string, p: Provider)
    ensures |Prologue(h, fileName, p)| == |Prologue(h, fileName, p.(prefixText := []))| + |PrefixBlock(p)|
    ensures |p.prefixText| == 0 <==> Prologue(h, fileName, p) == Prologue(h, fileName, p.(prefixText := []))
  {
    PrefixTextPlacement(h, fileName, p);
    var bare := Prologue(h, fileName, p.(prefixText := []));
    var k :| 0 <= k <= |bare| && Prologue(h, fileName, p) == bare[..k] + PrefixBlock(p) + bare[k..];
    assert |bare[..k]| + |bare[k..]| == |bare|;
    if |p.prefixText| > 0 {
      assert |PrefixBlock(p)| >= 2;
    } else {
      assert p.(prefixText := []) == p;
    }
  }

  /** The prologue is the prologue without prefix text with the prefix block
      inserted inside the once-only block, right after the Qt headers and the
      newline that follows them and right before its `#endif`. */
  lemma PrefixTextPlacement(h: Helpers, fileName: string, p: Provider)
    ensures var bare := Prologue(h, fileName, p.(prefixText := []));
      exists k :: 0 <= k <= |bare|
        && Prologue(h, fileName, p) == bare[..k] + PrefixBlock(p) + bare[k..]
        && EndsWith(bare[..k], h.qtHeaders + "\n")
        && StartsWith(bare[k..], "#endif\n\n")
  {
    var p0 := p.(prefixText := []);
    var lines := PrologueLines(h, fileName, p);
    var bareLines := PrologueLines(h, fileName, p0);
    assert lines[..6] == bareLines[..6];
    assert lines[7..] == bareLines[7..];
    var front, back := Concat(lines[..6]), Concat(lines[7..]);
    PrologueAroundPrefix(h, fileName, p);
    PrologueAroundPrefix(h, fileName, p0);
    var bare := Prologue(h, fileName, p0);
    assert bare == front + back;
    var k := |front|;
    assert bare[..k] == front;
    assert bare[k..] == back;
    PrologueFrontAndBack(h, fileName, p);
  }

  /** The prologue cut around its prefix block. */
  lemma PrologueAroundPrefix(h: Helpers, fileName: string, p: Provider)
    ensures var lines := PrologueLines(h, fileName, p);
      Prologue(h, fileName, p) == Concat(lines[..6]) + PrefixBlock(p) + Concat(lines[7..])
  {
    var lines := PrologueLines(h, fileName, p);
    ConcatSplit(lines, 6);
    ConcatCons(lines[6..]);
    assert lines[6..][1..] == lines[7..];
    AppendAssoc(Concat(lines[..6]), PrefixBlock(p), Concat(lines[7..]));
  }

  /** What comes before the prefix block ends with the Qt headers and a
      newline; what comes after it starts with the `#endif` of the once-only block. */
  lemma PrologueFrontAndBack(h: Helpers, fileName: string, p: Provider)
    ensures EndsWith(Concat(PrologueLines(h, fileName, p)[..6]), h.qtHeaders + "\n")
    ensures StartsWith(Concat(PrologueLines(h, fileName, p)[7..]), "#endif\n\n")
  {
    var lines := PrologueLines(h, fileName, p);
    assert lines[..6] == lines[..4] + [lines[4]] + [lines[5]];
    ConcatAppend(lines[..4] + [lines[4]], lines[5]);
    ConcatAppend(lines[..4], lines[4]);
    AppendAssoc(Concat(lines[..4]), h.qtHeaders, "\n");
    EndsWithAppend(Concat(lines[..4]), h.qtHeaders + "\n");
    ConcatStartsWithFirst(lines[7..]);
  }

  // ----- the whole header -----

  /** The tracepoint has a field whose encoding cannot be deduced. */
  predicate HasUnknownField(t: Tracepoint)
  {
    exists j :: 0 <= j < |t.fields| && t.fields[j].backendType == Unknown
  }

  /** On success the header is the prologue, then, for each tracepoint in
      provider order, its event declaration immediately followed by its
      wrappers, then the epilogue. */
  lemma LttngLayout(h: Helpers, fileName: string, p: Provider)
    requires Header(h, fileName, p).Ok?
    ensures exists blocks: seq<string> ::
      |blocks| == |p.tracepoints|
      && (forall i :: 0 <= i < |blocks| ==>
            EventBlock(p.tracepoints[i], p.name).Ok?
            && blocks[i] == EventBlock(p.tracepoints[i], p.name).value + Wrapper(h, p.tracepoints[i], p.name))
      && Header(h, fileName, p).value == Prologue(h, fileName, p) + Concat(blocks) + Epilogue(h, fileName)
  {
    var blocks := TracepointsLayout(h, p);
    assert Header(h, fileName, p).value == Prologue(h, fileName, p) + Concat(blocks) + Epilogue(h, fileName);
  }

  /** On success the tracepoint part is, in provider order, each tracepoint's
      event declaration immediately followed by its wrappers. */
  lemma TracepointsLayout(h: Helpers, p: Provider) returns (blocks: seq<string>)
    requires TracepointsText(h, p).Ok?
    ensures |blocks| == |p.tracepoints|
    ensures forall i :: 0 <= i < |blocks| ==>
      EventBlock(p.tracepoints[i], p.name).Ok?
      && blocks[i] == EventBlock(p.tracepoints[i], p.name).value + Wrapper(h, p.tracepoints[i], p.name)
    ensures TracepointsText(h, p).value == Concat(blocks)
  {
    var rs := TracepointTexts(h, p);
    blocks := AllOk(rs).value;
    forall i | 0 <= i < |blocks|
      ensures EventBlock(p.tracepoints[i], p.name).Ok?
      ensures blocks[i] == EventBlock(p.tracepoints[i], p.name).value + Wrapper(h, p.tracepoints[i], p.name)
    {
      assert rs[i] == TracepointText(h, p.tracepoints[i], p.name);
    }
  }

  /** Generation fails exactly when some tracepoint has a field of kind
      `Unknown`; it fails with the diagnostic of the first such field of the
      first such tracepoint, and then writes no header at all. */
  lemma LttngFailsAtFirstUnknown(h: Helpers, fileName: string, p: Provider)
    ensures Header(h, fileName, p).Err? <==>
      exists i :: 0 <= i < |p.tracepoints| && HasUnknownField(p.tracepoints[i])
    ensures Header(h, fileName, p).Err? ==>
      exists i :: 0 <= i < |p.tracepoints| && HasUnknownField(p.tracepoints[i])
        && (forall k :: 0 <= k < i ==> !HasUnknownField(p.tracepoints[k]))
        && EventBlock(p.tracepoints[i], p.name) == Err(Header(h, fileName, p).error)
  {
    TracepointsFailAtFirstUnknown(h, p);
    assert Header(h, fileName, p).Err? ==> Header(h, fileName, p) == TracepointsText(h, p);
  }

  /** The tracepoint blocks fail exactly when some tracepoint has a field of
      kind `Unknown`, with the failure of the first such tracepoint. */
  lemma TracepointsFailAtFirstUnknown(h: Helpers, p: Provider)
    ensures TracepointsText(h, p).Err? <==>
      exists i :: 0 <= i < |p.tracepoints| && HasUnknownField(p.tracepoints[i])
    ensures TracepointsText(h, p).Err? ==>
      exists i :: 0 <= i < |p.tracepoints| && HasUnknownField(p.tracepoints[i])
        && (forall k :: 0 <= k < i ==> !HasUnknownField(p.tracepoints[k]))
        && EventBlock(p.tracepoints[i], p.name) == Err(TracepointsText(h, p).error)
  {
    var ts := p.tracepoints;
    var rs := TracepointTexts(h, p);
    forall i | 0 <= i < |ts|
      ensures rs[i].Err? <==> HasUnknownField(ts[i])
      ensures rs[i].Err? ==> rs[i] == EventBlock(ts[i], p.name)
    {
      assert rs[i] == TracepointText(h, ts[i], p.name);
      TracepointTextFails(h, ts[i], p.name);
    }
    var r := AllOk(rs);
    if r.Err? {
      var i :| 0 <= i < |rs| && rs[i] == Err(r.error) && forall k :: 0 <= k < i ==> rs[k].Ok?;
      assert HasUnknownField(ts[i]);
    }
  }

  /** One tracepoint's block fails exactly when its event declaration does,
      with the same diagnostic. */
  lemma TracepointTextFails(h: Helpers, t: Tracepoint, providerName: string)
    ensures TracepointText(h, t, providerName).Err? <==> HasUnknownField(t)
    ensures TracepointText(h, t, providerName).Err? ==> TracepointText(h, t, providerName) == EventBlock(t, providerName)
  {
    EventBlockFailsAtFirstUnknown(t, providerName);
  }

  /** The first diagnostic, spelled out: the first tracepoint with an unknown
      field and, in it, its first such field. */
  lemma EventBlockFailsAtFirstUnknown(t: Tracepoint, providerName: string)
    ensures EventBlock(t, providerName).Err? <==> HasUnknownField(t)
    ensures EventBlock(t, providerName).Err? ==>
      exists j :: 0 <= j < |t.fields| && t.fields[j].backendType == Unknown
        && (forall k :: 0 <= k < j ==> t.fields[k].backendType != Unknown)
        && EventBlock(t, providerName).error == CannotDeduceCtfType(t.fields[j].paramType, t.fields[j].name)
  {
    var rs := FieldMacros(t.fields);
    var r := AllOk(rs);
    if r.Err? {
      var j :| 0 <= j < |rs| && rs[j] == Err(r.error) && forall k :: 0 <= k < j ==> rs[k].Ok?;
      assert CtfMacro(t.fields[j]) == rs[j];
      forall k | 0 <= k < j
        ensures t.fields[k].backendType != Unknown
      {
        assert CtfMacro(t.fields[k]) == rs[k];
      }
    } else {
      forall j | 0 <= j < |t.fields|
        ensures t.fields[j].backendType != Unknown
      {
        assert CtfMacro(t.fields[j]) == rs[j];
      }
    }
  }

  /** On success the multi-read guard opened in the prologue is defined there
      and closed by the epilogue, which ends the header with LTTng's event
      header and Qt's private trace header. */
  lemma FileGuardBalanced(h: Helpers, fileName: string, p: Provider)
    requires Header(h, fileName, p).Ok?
    ensures Precedes("#if !defined(" + h.includeGuard(fileName) + ") || defined(TRACEPOINT_HEADER_MULTI_READ)\n",
                     "#define " + h.includeGuard(fileName) + "\n\n",
                     Header(h, fileName, p).value)
    ensures EndsWith(Header(h, fileName, p).value,
                     "\n" + "#endif // " + h.includeGuard(fileName) + "\n" + TrailingIncludes)
  {
    var guard := h.includeGuard(fileName);
    var prologue := Prologue(h, fileName, p);
    var body := TracepointsText(h, p).value;
    var epilogue := Epilogue(h, fileName);
    var out := Header(h, fileName, p).value;
    assert out == prologue + body + epilogue;
    PrologueMultiReadBlock(h, fileName, p);
    AppendAssoc(prologue, body, epilogue);
    PrecedesExtend("#if !defined(" + guard + ") || defined(TRACEPOINT_HEADER_MULTI_READ)\n",
                   "#define " + guard + "\n\n", prologue, body + epilogue);
    EndsWithAppend(prologue + body, epilogue);
  }

  /** The tracepoint declarations between prologue and epilogue, and whether
      generation succeeds at all, do not depend on the output file's name. */
  lemma BodyIndependentOfFileName(h: Helpers, fileName1: string, fileName2: string, p: Provider)
    ensures Header(h, fileName1, p).Ok? <==> Header(h, fileName2, p).Ok?
    ensures Header(h, fileName1, p).Err? ==> Header(h, fileName1, p) == Header(h, fileName2, p)
    ensures Header(h, fileName1, p).Ok? ==>
      var out1, out2 := Header(h, fileName1, p).value, Header(h, fileName2, p).value;
      var start1, start2 := |Prologue(h, fileName1, p)|, |Prologue(h, fileName2, p)|;
      var end1, end2 := |out1| - |Epilogue(h, fileName1)|, |out2| - |Epilogue(h, fileName2)|;
      0 <= start1 <= end1 <= |out1| && 0 <= start2 <= end2 <= |out2|
      && out1[start1..end1] == TracepointsText(h, p).value && out2[start2..end2] == TracepointsText(h, p).value
  {
    if TracepointsText(h, p).Ok? {
      var body := TracepointsText(h, p).value;
      var a1, e1 := Prologue(h, fileName1, p), Epilogue(h, fileName1);
      var a2, e2 := Prologue(h, fileName2, p), Epilogue(h, fileName2);
      assert (a1 + body + e1)[|a1|..|a1 + body + e1| - |e1|] == body;
      assert (a2 + body + e2)[|a2|..|a2 + body + e2| - |e2|] == body;
    }
  }
}
