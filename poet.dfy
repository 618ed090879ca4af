/**
 * Primitive values shared by the member specs: the construct tag, modifiers,
 * type references, parameters, code blocks, the tokens a CodeWriter receives,
 * and the name-cleaning collaborator.
 */
module Poet {

  datatype Option<+T> = None | Some(value: T)

  /** The kind of source-level element a spec describes. */
  datatype Construct =
    | Class | Struct | Enum | Protocol | Extension
    | Field | MutableField | Method | Parameter

  /** Visibility and behaviour tags; their canonical order belongs to the writer. */
  datatype Modifier = Public | Private | Internal | Static | Final | Override | Mutating

  /**
   * A reference to a type. Its rendering is opaque; `collectedImports` stands
   * for whatever its own import collection returns.
   */
  datatype TypeName = TypeName(name: string, collectedImports: set<string>)

  /** A method parameter; how it renders is opaque, its import set is given. */
  datatype ParameterSpec = ParameterSpec(name: string, typeName: TypeName, collectedImports: set<string>)

  /** One object inside a code block, emitted as a literal. */
  datatype Emittable =
    | Str(s: string)              // a literal string
    | Kw(c: Construct)            // a construct, rendered as its keyword
    | Ty(t: Option<TypeName>)     // a (possibly absent) type reference
    | Nested(tag: string)         // any other emittable object, rendered by its own emit

  /** A frozen code fragment: its ordered emittable objects. */
  datatype CodeBlock = CodeBlock(emittableObjects: seq<Emittable>)

  /** One call made on a CodeWriter, in the order it was made. */
  datatype Token =
    | Doc(description: Option<string>)   // emitDocumentation(spec)
    | Modifiers(mods: set<Modifier>)     // emitModifiers(modifiers)
    | Chunk(items: seq<Emittable>)       // emit(codeBlock) or emit(.Literal, any: s)
    | Line(items: seq<Emittable>)        // emitWithIndentation(codeBlock)
    | Param(p: ParameterSpec)            // p.emit(codeWriter)
    | BeginStatement
    | EndStatement

  /** A token that opens or closes a brace-delimited block. */
  predicate IsBrace(t: Token)
  {
    t.BeginStatement? || t.EndStatement?
  }

  /** Number of occurrences of `t` in `ts`. */
  function CountOf(ts: seq<Token>, t: Token): nat
  {
    if ts == [] then 0 else CountOf(ts[..|ts| - 1], t) + (if ts[|ts| - 1] == t then 1 else 0)
  }

  lemma {:induction false} CountOfAppend(a: seq<Token>, b: seq<Token>, t: Token)
    ensures CountOf(a + b, t) == CountOf(a, t) + CountOf(b, t)
    decreases |b|
  {
    if b == [] {
      assert a + b == a;
    } else {
      assert (a + b)[..|a + b| - 1] == a + b[..|b| - 1];
      CountOfAppend(a, b[..|b| - 1], t);
    }
  }

  lemma {:induction false} CountOfAbsent(ts: seq<Token>, t: Token)
    requires t !in ts
    ensures CountOf(ts, t) == 0
    decreases |ts|
  {
    if ts != [] {
      assert ts[..|ts| - 1] <= ts;
      CountOfAbsent(ts[..|ts| - 1], t);
    }
  }

  /**
   * Brace nesting: reading `ts` from a block depth `depth`, no EndStatement
   * closes a block that was never opened and every block is closed at the end.
   */
  predicate WellNested(ts: seq<Token>, depth: nat)
  {
    if ts == [] then depth == 0
    else match ts[0]
      case BeginStatement => WellNested(ts[1..], depth + 1)
      case EndStatement => depth > 0 && WellNested(ts[1..], depth - 1)
      case _ => WellNested(ts[1..], depth)
  }

  predicate Balanced(ts: seq<Token>)
  {
    WellNested(ts, 0)
  }

  /** Tokens without braces leave the nesting depth untouched. */
  lemma {:induction false} WellNestedSkip(a: seq<Token>, b: seq<Token>, depth: nat)
    requires forall i :: 0 <= i < |a| ==> !IsBrace(a[i])
    ensures WellNested(a + b, depth) == WellNested(b, depth)
    decreases |a|
  {
    if a != [] {
      assert !IsBrace(a[0]);
      assert (a + b)[0] == a[0];
      assert (a + b)[1..] == a[1..] + b;
      forall i | 0 <= i < |a[1..]| ensures !IsBrace(a[1..][i]) {
        assert a[1..][i] == a[i + 1];
      }
      WellNestedSkip(a[1..], b, depth);
    } else {
      assert a + b == b;
    }
  }

  /**
   * The name-cleaning and list helpers of PoetUtil, whose definitions are
   * outside this model: two total cleaning functions, and whether adding to a
   * list skips an element that is already present.
   */
  datatype PoetUtil = PoetUtil(
    cleanCamelCase: string -> string,
    cleanTypeName: string -> string,
    dedupes: bool)

  /** PoetUtil.addDataToList: appends `x`, unless the helper skips duplicates and `x` is present. */
  function AddDataToList<T(==)>(x: T, list: seq<T>, dedupes: bool): (r: seq<T>)
    ensures x in r
    ensures list <= r && |r| <= |list| + 1
    ensures !dedupes ==> r == list + [x]
  {
    if dedupes && x in list then list else list + [x]
  }

  /** Adds every element of `xs` in order, as the forEach over `addDataToList` does. */
  function AddAllToList<T(==)>(xs: seq<T>, list: seq<T>, dedupes: bool): seq<T>
  {
    if xs == [] then list
    else AddDataToList(xs[|xs| - 1], AddAllToList(xs[..|xs| - 1], list, dedupes), dedupes)
  }

  /**
   * Adding several elements keeps the old list as a prefix, contains every
   * added element, holds nothing else, and is plain concatenation when the
   * helper does not skip duplicates.
   */
  lemma {:induction false} AddAllToListSpec<T>(xs: seq<T>, list: seq<T>, dedupes: bool)
    ensures list <= AddAllToList(xs, list, dedupes)
    ensures forall x :: x in xs ==> x in AddAllToList(xs, list, dedupes)
    ensures forall x :: x in AddAllToList(xs, list, dedupes) ==> x in list || x in xs
    ensures !dedupes ==> AddAllToList(xs, list, dedupes) == list + xs
    decreases |xs|
  {
    if xs != [] {
      var init := xs[..|xs| - 1];
      AddAllToListSpec(init, list, dedupes);
      assert xs == init + [xs[|xs| - 1]];
      assert !dedupes ==> list + init + [xs[|xs| - 1]] == list + xs;
    }
  }
}
