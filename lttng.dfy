/** The LTTng backend of the tracepoint generator (src/tools/tracegen/lttng.cpp):
    from a provider it produces the text of a C/C++ header that declares one
    LTTng event per tracepoint and an inline wrapper per tracepoint that call
    sites use to fire it. */
module Lttng {
  import opened Wrappers
  import opened Text
  import opened Tracegen

  /** The helpers the generator calls whose definitions are in other files
      (helpers.h and qtheaders.h). The model takes them as given functions:
      `includeGuard` maps the output file name to its include-guard token,
      `functionSignature` renders a parameter list for a function declaration,
      `parameterList` renders the LTTng forwarding list of argument names and
      `qtHeaders` is the block of Qt includes. */
  datatype Helpers = Helpers(
    includeGuard: string -> string,
    functionSignature: seq<Argument> -> string,
    parameterList: seq<Argument> -> string,
    qtHeaders: string)

  /** The generation failure raised for a field whose encoding is unknown. */
  datatype Diagnostic = CannotDeduceCtfType(paramType: string, name: string)

  /** The message the generator aborts with. */
  function Message(d: Diagnostic): (r: string)
    ensures StartsWith(r, "Cannot deduce CTF type for '")
    ensures OccursAt(d.paramType + " " + d.name, r, 28)
    ensures EndsWith(r, "'") && |r| == 28 + |d.paramType| + 1 + |d.name| + 1
  {
    var prefix := "Cannot deduce CTF type for '";
    assert |prefix| == 28;
    OccursInMiddle(prefix, d.paramType + " " + d.name, "'");
    prefix + (d.paramType + " " + d.name) + "'"
  }

  // ----- one field: writeCtfMacro -----

  /** A CTF macro invocation: its name and its arguments. */
  datatype Macro = Macro(name: string, args: seq<string>)

  /** How a field is declared: one macro, or, for a value that expands into
      several scalar fields, several macros each followed by a space. */
  datatype Rendering = Single(macro: Macro) | Composite(parts: seq<Macro>)

  /** `name(arg, arg, ...)`. */
  function RenderMacro(m: Macro): string
  {
    m.name + "(" + Join(m.args, ", ") + ")"
  }

  /** Each macro of a composite rendering followed by a space, in order. */
  function RenderParts(ms: seq<Macro>): string
  {
    if |ms| == 0 then "" else RenderMacro(ms[0]) + " " + RenderParts(ms[1..])
  }

  function Render(e: Rendering): string
  {
    match e
    case Single(m) => RenderMacro(m)
    case Composite(ms) => RenderParts(ms)
  }

  /** `ctf_integer(int, accessor, name.accessor())`: one integer read through an
      accessor of a composite value. */
  function IntegerOf(name: string, accessor: string): Macro
  {
    Macro("ctf_integer", ["int", accessor, name + "." + accessor + "()"])
  }

  /** One integer part for each accessor, in order. */
  function IntegersOf(name: string, accessors: seq<string>): seq<Macro>
  {
    seq(|accessors|, i requires 0 <= i < |accessors| => IntegerOf(name, accessors[i]))
  }

  const RectAccessors: seq<string> := ["x", "y", "width", "height"]
  const SizeAccessors: seq<string> := ["width", "height"]

  /** The switch over the field kinds: the macro, with its arguments, that
      declares a field of each kind, and `None` for a field of kind `Unknown`. */
  function CtfEncoding(f: Field): (r: Option<Rendering>)
    ensures r.None? <==> f.backendType == Unknown
  {
    var paramType, name := f.paramType, f.name;
    match f.backendType
    case Array => Some(Single(Macro("ctf_array", [paramType, name, name, Decimal(f.arrayLen)])))
    case Sequence => Some(Single(Macro("ctf_sequence", [paramType, name, name, "unsigned int", f.seqLen])))
    case Integer => Some(Single(Macro("ctf_integer", [paramType, name, name])))
    case IntegerHex => Some(Single(Macro("ctf_integer_hex", [paramType, name, name])))
    case Pointer => Some(Single(Macro("ctf_integer_hex", [paramType, name, name])))
    case Float => Some(Single(Macro("ctf_float", [paramType, name, name])))
    case String => Some(Single(Macro("ctf_string", [name, name])))
    case QtString =>
      Some(Single(Macro("ctf_sequence", ["const ushort", name, name + ".utf16()", "unsigned int", name + ".size()"])))
    case QtByteArray =>
      Some(Single(Macro("ctf_sequence", ["const char", name, name + ".constData()", "unsigned int", name + ".size()"])))
    case QtUrl =>
      Some(Single(Macro("ctf_sequence",
        ["const char", name, name + ".toEncoded().constData()", "unsigned int", name + ".toEncoded().size()"])))
    case QtRect => Some(Composite(IntegersOf(name, RectAccessors)))
    case QtSize => Some(Composite(IntegersOf(name, SizeAccessors)))
    case Unknown => None
  }

  /** The text declaring one field, or the failure for a field of kind
      `Unknown`, which writes nothing. */
  function CtfMacro(f: Field): (r: Result<string, Diagnostic>)
    ensures r.Err? <==> f.backendType == Unknown
    ensures r.Err? ==> r.error == CannotDeduceCtfType(f.paramType, f.name)
  {
    match CtfEncoding(f)
    case None => Err(CannotDeduceCtfType(f.paramType, f.name))
    case Some(e) => Ok(Render(e))
  }

  // ----- one tracepoint: writeTracepoint -----

  /** `type, name` for one argument of TP_ARGS. */
  function ArgText(a: Argument): string
  {
    a.typeName + ", " + a.name
  }

  function ArgTexts(args: seq<Argument>): seq<string>
  {
    seq(|args|, i requires 0 <= i < |args| => ArgText(args[i]))
  }

  function FieldMacros(fields: seq<Field>): seq<Result<string, Diagnostic>>
  {
    seq(|fields|, i requires 0 <= i < |fields| => CtfMacro(fields[i]))
  }

  const FieldSeparator := "\n        "
  const FieldsOpen := "),\n    TP_FIELDS("
  const EventClose := ")\n)\n\n"

  /** Everything of the event declaration before its argument list. */
  function EventHead(t: Tracepoint, providerName: string): string
  {
    "TRACEPOINT_EVENT(\n" + "    " + providerName + ",\n" + "    " + t.name + ",\n" + "    TP_ARGS("
  }

  /** The TRACEPOINT_EVENT declaration of one tracepoint: its arguments joined
      by ", ", its field macros joined by a newline and eight spaces, or the
      failure of its first field whose kind is `Unknown`. */
  function EventBlock(t: Tracepoint, providerName: string): Result<string, Diagnostic>
  {
    match AllOk(FieldMacros(t.fields))
    case Err(e) => Err(e)
    case Ok(macros) =>
      Ok(EventHead(t, providerName) + Join(ArgTexts(t.args), ", ") + FieldsOpen
         + Join(macros, FieldSeparator) + EventClose)
  }

  /** `out` followed by the text of `r`, or the failure of `r`. */
  function Appended(out: string, r: Result<string, Diagnostic>): Result<string, Diagnostic>
  {
    match r
    case Ok(s) => Ok(out + s)
    case Err(e) => Err(e)
  }

  /** writeTracepoint: writes the event declaration of `t` after `out`. */
  method WriteTracepoint(out: string, t: Tracepoint, providerName: string) returns (res: Result<string, Diagnostic>)
    ensures res == Appended(out, EventBlock(t, providerName))
  {
    var s := WriteArgs(out + EventHead(t, providerName), t.args);
    s := s + FieldsOpen;
    var r := WriteFields(s, t.fields);
    match r {
      case Err(e) =>
        res := Err(e);
      case Ok(s') =>
        ghost var macros := AllOk(FieldMacros(t.fields)).value;
        assert s' == out + EventHead(t, providerName) + Join(ArgTexts(t.args), ", ") + FieldsOpen
          + Join(macros, FieldSeparator);
        EventBlockWritten(out, t, providerName, macros);
        res := Ok(s' + EventClose);
    }
  }

  /** The text writeTracepoint leaves after `out` is the event declaration. */
  lemma EventBlockWritten(out: string, t: Tracepoint, providerName: string, macros: seq<string>)
    requires AllOk(FieldMacros(t.fields)) == Ok(macros)
    ensures Appended(out, EventBlock(t, providerName))
         == Ok(out + EventHead(t, providerName) + Join(ArgTexts(t.args), ", ") + FieldsOpen
               + Join(macros, FieldSeparator) + EventClose)
  {
    var head, args, fields := EventHead(t, providerName), Join(ArgTexts(t.args), ", "), Join(macros, FieldSeparator);
    AppendAssoc(out, head, args);
    AppendAssoc(out, head + args, FieldsOpen);
    AppendAssoc(out, head + args + FieldsOpen, fields);
    AppendAssoc(out, head + args + FieldsOpen + fields, EventClose);
  }

  /** The first loop of writeTracepoint: every argument as `type, name`, with
      ", " in front of every argument but the first. */
  method WriteArgs(out: string, args: seq<Argument>) returns (s: string)
    ensures s == out + Join(ArgTexts(args), ", ")
  {
    s := out;
    ghost var argTexts := ArgTexts(args);
    var comma := "";
    var i := 0;
    while i < |args|
      invariant 0 <= i <= |args|
      invariant comma == if i == 0 then "" else ", "
      invariant s == out + Join(argTexts[..i], ", ")
    {
      assert argTexts[..i + 1] == argTexts[..i] + [argTexts[i]];
      if i > 0 {
        JoinAppend(argTexts[..i], argTexts[i], ", ");
      } else {
        assert argTexts[..i] == [];
      }
      s := s + comma + ArgText(args[i]);
      comma := ", ";
      i := i + 1;
    }
    assert argTexts[..i] == argTexts;
  }

  /** The second loop of writeTracepoint: every field's macro, with the field
      separator in front of every field but the first; it stops at the first
      field of kind `Unknown`. */
  method WriteFields(out: string, fields: seq<Field>) returns (res: Result<string, Diagnostic>)
    ensures res == match AllOk(FieldMacros(fields))
      case Ok(macros) => Ok(out + Join(macros, FieldSeparator))
      case Err(e) => Err(e)
  {
    var s := out;
    var newline := "";
    ghost var results := FieldMacros(fields);
    ghost var macros: seq<string> := [];
    var j := 0;
    while j < |fields|
      invariant 0 <= j <= |fields|
      invariant newline == if j == 0 then "" else FieldSeparator
      invariant AllOk(results[..j]) == Ok(macros)
      invariant s == out + Join(macros, FieldSeparator)
    {
      var m := CtfMacro(fields[j]);
      assert results[j] == m;
      if m.Err? {
        AllOkPrefixThenFailure(results, j);
        return Err(m.error);
      }
      AllOkExtend(results, j, macros, m.value);
      MacroAppended(out, macros, m.value, newline);
      s := s + newline + m.value;
      macros := macros + [m.value];
      newline := FieldSeparator;
      j := j + 1;
    }
    assert results[..j] == results;
    res := Ok(s);
  }

  /** Writing the separator (none before the first field) and then the next
      macro extends the joined macros by that macro. */
  lemma MacroAppended(out: string, macros: seq<string>, m: string, newline: string)
    requires newline == if |macros| == 0 then "" else FieldSeparator
    ensures out + Join(macros, FieldSeparator) + newline + m == out + Join(macros + [m], FieldSeparator)
  {
    if |macros| > 0 {
      JoinAppend(macros, m, FieldSeparator);
      AppendAssoc(out, Join(macros, FieldSeparator) + newline, m);
      AppendAssoc(out, Join(macros, FieldSeparator), newline);
    } else {
      assert macros + [m] == [m];
    }
  }

  // ----- the inline wrappers: writeWrapper -----

  /** The guard of a tracepoint's wrappers: `TP_<provider>_<tracepoint>` in upper case. */
  function WrapperGuard(providerName: string, name: string): (r: string)
    ensures |r| == 4 + |providerName| + |name|
  {
    AsciiUpper("TP_" + providerName + "_" + name)
  }

  /** The lines of the wrapper block of one tracepoint, in the order written. */
  function WrapperLines(h: Helpers, t: Tracepoint, providerName: string): seq<string>
  {
    var argList := h.functionSignature(t.args);
    var paramList := h.parameterList(t.args);
    var name := t.name;
    var guard := WrapperGuard(providerName, name);
    [ "\n",
      "#ifndef " + guard + "\n",
      "#define " + guard + "\n",
      "QT_BEGIN_NAMESPACE\n",
      "namespace QtPrivate {\n",
      "inline void trace_" + name + "(" + argList + ")\n",
      "{\n",
      "    tracepoint(" + providerName + ", " + name + paramList + ");\n",
      "}\n",
      "inline void do_trace_" + name + "(" + argList + ")\n",
      "{\n",
      "    do_tracepoint(" + providerName + ", " + name + paramList + ");\n",
      "}\n",
      "inline bool trace_" + name + "_enabled()\n",
      "{\n",
      "    return tracepoint_enabled(" + providerName + ", " + name + ");\n",
      "}\n",
      "} // namespace QtPrivate\n",
      "QT_END_NAMESPACE\n",
      "#endif // " + guard + "\n\n" ]
  }

  /** The wrapper block of one tracepoint: `trace_X`, `do_trace_X` and
      `trace_X_enabled` inside a guard keyed on provider and tracepoint. */
  function Wrapper(h: Helpers, t: Tracepoint, providerName: string): string
  {
    Concat(WrapperLines(h, t, providerName))
  }

  // ----- all tracepoints: writeTracepoints -----

  /** The event declaration of a tracepoint immediately followed by its wrappers. */
  function TracepointText(h: Helpers, t: Tracepoint, providerName: string): Result<string, Diagnostic>
  {
    match EventBlock(t, providerName)
    case Err(e) => Err(e)
    case Ok(event) => Ok(event + Wrapper(h, t, providerName))
  }

  function TracepointTexts(h: Helpers, p: Provider): seq<Result<string, Diagnostic>>
  {
    seq(|p.tracepoints|, i requires 0 <= i < |p.tracepoints| => TracepointText(h, p.tracepoints[i], p.name))
  }

  /** The blocks of all tracepoints in provider order, or the first failure. */
  function TracepointsText(h: Helpers, p: Provider): Result<string, Diagnostic>
  {
    match AllOk(TracepointTexts(h, p))
    case Err(e) => Err(e)
    case Ok(blocks) => Ok(Concat(blocks))
  }

  /** writeTracepoints: writes every tracepoint's event and wrappers after `out`. */
  method WriteTracepoints(h: Helpers, out: string, p: Provider) returns (res: Result<string, Diagnostic>)
    ensures res == Appended(out, TracepointsText(h, p))
  {
    var s := out;
    ghost var texts := TracepointTexts(h, p);
    ghost var blocks: seq<string> := [];
    var i := 0;
    while i < |p.tracepoints|
      invariant 0 <= i <= |p.tracepoints|
      invariant AllOk(texts[..i]) == Ok(blocks)
      invariant s == out + Concat(blocks)
    {
      var r := WriteTracepointAndWrapper(h, s, p.tracepoints[i], p.name);
      assert texts[i] == TracepointText(h, p.tracepoints[i], p.name);
      if r.Err? {
        AllOkPrefixThenFailure(texts, i);
        return Err(r.error);
      }
      ghost var block := texts[i].value;
      AllOkExtend(texts, i, blocks, block);
      BlockAppended(out, blocks, block);
      s := r.value;
      blocks := blocks + [block];
      i := i + 1;
    }
    assert texts[..i] == texts;
    res := Ok(s);
  }

  /** The body of the loop of writeTracepoints: the event declaration of `t`
      and then its wrappers, after `out`. */
  method WriteTracepointAndWrapper(h: Helpers, out: string, t: Tracepoint, providerName: string)
    returns (res: Result<string, Diagnostic>)
    ensures res == Appended(out, TracepointText(h, t, providerName))
  {
    var r := WriteTracepoint(out, t, providerName);
    if r.Err? {
      return Err(r.error);
    }
    ghost var event := EventBlock(t, providerName).value;
    AppendAssoc(out, event, Wrapper(h, t, providerName));
    res := Ok(r.value + Wrapper(h, t, providerName));
  }

  lemma BlockAppended(out: string, blocks: seq<string>, block: string)
    ensures out + Concat(blocks) + block == out + Concat(blocks + [block])
  {
    ConcatAppend(blocks, block);
    AppendAssoc(out, Concat(blocks), block);
  }

  // ----- prologue and epilogue -----

  /** The provider's prefix lines joined by newlines and followed by a blank
      line, or nothing when there are no prefix lines. */
  function PrefixBlock(p: Provider): (r: string)
    ensures r == "" <==> |p.prefixText| == 0
  {
    if |p.prefixText| == 0 then "" else Join(p.prefixText, "\n") + "\n\n"
  }

  function NamespaceGuard(guard: string): string
  {
    guard + "_USE_NAMESPACE"
  }

  /** The lines of the prologue, in the order written. */
  function PrologueLines(h: Helpers, fileName: string, p: Provider): seq<string>
  {
    var guard := h.includeGuard(fileName);
    var namespaceGuard := NamespaceGuard(guard);
    [ "#undef TRACEPOINT_PROVIDER\n",
      "#define TRACEPOINT_PROVIDER " + p.name + "\n",
      "\n",
      "#if !defined(" + guard + ")\n",
      h.qtHeaders,
      "\n",
      PrefixBlock(p),
      "#endif\n\n",
      "#if !defined(" + guard + ") || defined(TRACEPOINT_HEADER_MULTI_READ)\n",
      "#define " + guard + "\n\n",
      "#undef TRACEPOINT_INCLUDE\n",
      "#define TRACEPOINT_INCLUDE \"" + fileName + "\"\n\n",
      "#include <lttng/tracepoint.h>\n\n",
      "#if !defined(" + namespaceGuard + ")\n",
      "#define " + namespaceGuard + "\n",
      "QT_USE_NAMESPACE\n",
      "#endif // " + namespaceGuard + "\n\n" ]
  }

  /** writePrologue: the provider macro, the once-only block of headers and
      prefix text, and the opening of the multi-read guard. */
  function Prologue(h: Helpers, fileName: string, p: Provider): string
  {
    Concat(PrologueLines(h, fileName, p))
  }

  const TrailingIncludes := "#include <lttng/tracepoint-event.h>\n" + "#include <private/qtrace_p.h>\n"

  /** writeEpilogue: closes the multi-read guard and adds the trailing includes. */
  function Epilogue(h: Helpers, fileName: string): string
  {
    "\n" + "#endif // " + h.includeGuard(fileName) + "\n" + TrailingIncludes
  }

  // ----- the whole header: writeLttng -----

  /** The header for `p` written to a file whose base name is `fileName`. */
  function Header(h: Helpers, fileName: string, p: Provider): Result<string, Diagnostic>
  {
    match TracepointsText(h, p)
    case Err(e) => Err(e)
    case Ok(body) => Ok(Prologue(h, fileName, p) + body + Epilogue(h, fileName))
  }

  /** writeLttng: prologue, tracepoints, epilogue, on a fresh stream. */
  method WriteLttng(h: Helpers, fileName: string, p: Provider) returns (res: Result<string, Diagnostic>)
    ensures res == Header(h, fileName, p)
  {
    var s := Prologue(h, fileName, p);
    var r := WriteTracepoints(h, s, p);
    if r.Err? {
      return Err(r.error);
    }
    res := Ok(r.value + Epilogue(h, fileName));
  }
}
