/**
 * The rendering engine, reduced to what the member specs rely on: an
 * append-only buffer of the calls made on it. Text layout (spacing,
 * indentation strings, doc-comment format, modifier order) is not modelled.
 */
module CodeWriting {
  import opened Poet

  class CodeWriter {
    /** Every call made on this writer, oldest first. */
    var out: seq<Token>

    constructor ()
      ensures out == []
    {
      out := [];
    }

    method EmitDocumentation(description: Option<string>)
      modifies this
      ensures out == old(out) + [Doc(description)]
    {
      out := out + [Doc(description)];
    }

    method EmitModifiers(mods: set<Modifier>)
      modifies this
      ensures out == old(out) + [Modifiers(mods)]
    {
      out := out + [Modifiers(mods)];
    }

    /** emit(codeBlock): the block's objects, on the current line. */
    method EmitBlock(items: seq<Emittable>)
      modifies this
      ensures out == old(out) + [Chunk(items)]
    {
      out := out + [Chunk(items)];
    }

    /** emit(.Literal, any: s): a one-literal block. */
    method EmitLiteral(s: string)
      modifies this
      ensures out == old(out) + [Chunk([Str(s)])]
    {
      out := out + [Chunk([Str(s)])];
    }

    /** emitWithIndentation(codeBlock): one indented, terminated line. */
    method EmitWithIndentation(items: seq<Emittable>)
      modifies this
      ensures out == old(out) + [Line(items)]
    {
      out := out + [Line(items)];
    }

    /** p.emit(codeWriter): the parameter renders itself. */
    method EmitParameter(p: ParameterSpec)
      modifies this
      ensures out == old(out) + [Param(p)]
    {
      out := out + [Param(p)];
    }

    method BeginStatement()
      modifies this
      ensures out == old(out) + [Token.BeginStatement]
    {
      out := out + [Token.BeginStatement];
    }

    method EndStatement()
      modifies this
      ensures out == old(out) + [Token.EndStatement]
    {
      out := out + [Token.EndStatement];
    }
  }
}
