# SwiftPoet member rendering, in Dafny

SwiftPoet builds Swift source text from immutable specs. A builder collects a
member's parts. `build()` freezes them into a spec. `emit` then renders the
spec onto a shared `CodeWriter`. This project models the two member specs,
`FieldSpec` and `MethodSpec`, and their builders:

- **FieldSpec rendering** depends on the parent the field was adopted by.
  Under an Enum it becomes a `case` line. Under a Struct or Class it becomes a
  stored property. Under a Protocol it becomes a requirement with an accessor
  suffix. With no parent, or any other parent, only documentation is emitted.
- **MethodSpec rendering**: a protocol requirement is the signature alone.
  Any other method is the signature plus one braced body. Parts of the
  signature are fixed: the `init` keyword rule, the separators between
  parameters, the throws marker and the return arrow.
- **MethodSpec import collection** is the union of the method's own imports
  and the imports of its type variables, its parameters and its return type.
- **The builders**: default constructs, name cleaning, overwriting setters,
  the throws flag, and accumulation of type variables and parameters.

Layout:

- `poet.dfy` (module `Poet`) holds the shared values:
  - `Construct`, `Modifier`, `TypeName`, `ParameterSpec`, `CodeBlock`;
  - `Token`, one per call on the writer;
  - brace nesting (`Balanced`);
  - `PoetUtil`, the helper collaborator, passed in as a value.
- `code_writer.dfy` (module `CodeWriting`) holds the `CodeWriter` class. It is
  an append-only `seq<Token>`. The writer's text layout is not modelled.
- `method_spec.dfy` (module `MethodSpecs`) holds:
  - the `MethodSpec` value and its import collection;
  - the rendering functions, and the emitters proved against them;
  - the lemmas about the rendering;
  - the `MethodSpecBuilder` class.
- `field_spec.dfy` (module `FieldSpecs`) holds the same for `FieldSpec` and
  `FieldSpecBuilder`.

Each emitter is a method with `modifies w`. Its `ensures` ties the writer's
new buffer to the old buffer plus a pure function of the spec: `MethodTokens`,
`GeneralFunctionTokens`, `SignatureTokens` or `FieldTokens`. The lemmas state
what the source promises about those functions.

The builders are classes whose fields the adders reassign. `Model()` is the
spec that `build()` would produce. Every adder states the new `Model()` as
the old one with exactly one field replaced.

The mutable-field accessor suffix is `{get set}`, with no inner spaces; the
immutable one is `{ get }` (Sources/Spec/FieldSpec.swift:92-96). The public
factory `FieldSpec.builder` (Sources/Spec/FieldSpec.swift:23-25) is the only
caller of the builder's initialiser and never passes `MutableField`, so
`{get set}` is reachable only through that initialiser, not through the
public factory.

The three field rules all use the same name conditional: type-name cleaning
under an Enum parent, camel-case cleaning otherwise. The model keeps that
conditional (`CleanName`). It proves that the class and protocol rules always
choose camel-case cleaning, because their parent is never Enum there.

## Model

| member | source | states |
|---|---|---|
| `MethodSpecs.CollectImports` | Sources/Spec/MethodSpec.swift:35-48 | a string is collected iff it is a declared import, an import of some type variable, of some parameter, or of the return type when present |
| `MethodSpecs.UnionAllMembers` | Sources/Spec/MethodSpec.swift:44-47 | the reduce that inserts every gathered set into an empty accumulator holds exactly the elements of some gathered set |
| `MethodSpecs.DeclaredImportsCollected` | Sources/Spec/MethodSpec.swift:35-47 | the declared imports, every parameter's imports and every type variable's imports are subsets of the collected set |
| `MethodSpecs.CollectImportsIndependentOfRendering` | Sources/Spec/MethodSpec.swift:35-48 | two methods with the same imports, type variables, parameters and return type collect the same set, whatever their parent, body, name or throws flag |
| `MethodSpecs.EmitMethod` | Sources/Spec/MethodSpec.swift:50-64 | appends exactly `MethodTokens(m)`: the signature alone under a Protocol parent, the general function otherwise or with no parent; returns the same writer |
| `MethodSpecs.EmitGeneralFunction` | Sources/Spec/MethodSpec.swift:66-73 | appends the signature, one BeginStatement, the body block only when present, one EndStatement |
| `MethodSpecs.EmitFunctionSignature` | Sources/Spec/MethodSpec.swift:75-108 | appends documentation, modifiers, the head block, the parameter list built by the `first`-flag loop, `)`, the throws marker and the return clause, in that order |
| `MethodSpecs.ParameterListSnoc` | Sources/Spec/MethodSpec.swift:88-94 | one more loop iteration adds a `", "` separator only when a parameter came before, then the parameter |
| `MethodSpecs.ParameterListShape` | Sources/Spec/MethodSpec.swift:87-94 | n parameters give 2n-1 tokens: even positions are the parameters in declaration order, odd positions are `", "` separators |
| `MethodSpecs.ParameterListTokens` | Sources/Spec/MethodSpec.swift:87-94 | the parameter loop emits nothing but parameters and separators |
| `MethodSpecs.ParameterListParams` | Sources/Spec/MethodSpec.swift:87-94 | the parameters emitted are exactly the declared ones, in declaration order |
| `MethodSpecs.ParameterListSeparators` | Sources/Spec/MethodSpec.swift:87-94 | n parameters are separated by exactly n-1 `", "` separators |
| `MethodSpecs.OpeningAndClosing` | Sources/Spec/MethodSpec.swift:76-107 | the tokens before and after the parameter list are neither parameters, braces nor separators, and carry no construct keyword after `(` |
| `MethodSpecs.SignatureParameters` | Sources/Spec/MethodSpec.swift:87-96 | over the whole signature, the parameters appear in declaration order, and there are exactly n-1 `", "` separators before the closing `)` |
| `MethodSpecs.SignatureBraceFree` | Sources/Spec/MethodSpec.swift:75-108 | no token of the signature opens or closes a block |
| `MethodSpecs.KeywordUnlessInit` | Sources/Spec/MethodSpec.swift:80-85 | the head block is the construct keyword, the name and `(` when the name is not `init`, and just the name and `(` when it is; no other signature block carries the keyword |
| `MethodSpecs.ThrowsMarkerIffThrows` | Sources/Spec/MethodSpec.swift:98-100 | `" throws"` appears in the signature iff `throwsError` |
| `MethodSpecs.ReturnClauseIffReturnType` | Sources/Spec/MethodSpec.swift:102-107 | a `" ->"` return clause appears iff a return type is present, and it is that return type |
| `MethodSpecs.MarkersFollowCloseParen` | Sources/Spec/MethodSpec.swift:96-107 | the signature ends with `)`, then the throws marker if any, then the return clause if any, last |
| `MethodSpecs.ProtocolRequirementHasNoBody` | Sources/Spec/MethodSpec.swift:56-58 | under a Protocol parent the rendering is the signature alone, with no BeginStatement and no EndStatement, whatever body the method carries |
| `MethodSpecs.ImplementationHasOneBracePair` | Sources/Spec/MethodSpec.swift:50-73 | with no parent or a non-Protocol parent: the signature, then one BeginStatement, then the body only if present, then one EndStatement; exactly one of each brace |
| `MethodSpecs.MethodBracesBalanced` | Sources/Spec/MethodSpec.swift:50-73 | on every rendering path, the BeginStatement/EndStatement calls the method itself makes are balanced (the body is one opaque block, see Left out) |
| `MethodSpecs.MethodSpecBuilder.constructor` | Sources/Spec/MethodSpec.swift:113-131 | the name `init` is kept verbatim and every other name is camel-case cleaned; the construct is Method; throwsError is false; nothing else is set |
| `MethodSpecs.MethodSpecBuilder.Build` | Sources/Spec/MethodSpec.swift:20-28 | the built spec copies every accumulated field |
| `MethodSpecs.MethodSpecBuilder.AddTypeVariable` | Sources/Spec/MethodSpec.swift:142-145 | adds the type variable through the list helper; changes nothing else; returns the same builder |
| `MethodSpecs.MethodSpecBuilder.AddTypeVariables` | Sources/Spec/MethodSpec.swift:147-150 | adds each type variable in order; the old list stays a prefix and every given type variable is present afterwards |
| `MethodSpecs.MethodSpecBuilder.AddReturnType` | Sources/Spec/MethodSpec.swift:152-155 | overwrites any earlier return type; changes nothing else |
| `MethodSpecs.MethodSpecBuilder.AddParameter` | Sources/Spec/MethodSpec.swift:157-160 | adds the parameter through the list helper; changes nothing else |
| `MethodSpecs.MethodSpecBuilder.AddParameters` | Sources/Spec/MethodSpec.swift:162-165 | adds each parameter in order; the old list stays a prefix and every given parameter is present afterwards |
| `MethodSpecs.MethodSpecBuilder.AddCode` | Sources/Spec/MethodSpec.swift:167-170 | the body becomes a copy of the given block, replacing any earlier body |
| `MethodSpecs.MethodSpecBuilder.AddParentType` | Sources/Spec/MethodSpec.swift:172-175 | overwrites the parent; changes nothing else |
| `MethodSpecs.MethodSpecBuilder.CanThrowError` | Sources/Spec/MethodSpec.swift:177-180 | sets throwsError, the only operation that changes it |
| `MethodSpecs.MethodSpecBuilder.AddModifier` | Sources/Spec/MethodSpec.swift:190-193 | adds the modifier to the modifier set; returns the same builder |
| `MethodSpecs.MethodSpecBuilder.AddModifiers` | Sources/Spec/MethodSpec.swift:195-198 | adds every given modifier to the set |
| `MethodSpecs.MethodSpecBuilder.AddDescription` | Sources/Spec/MethodSpec.swift:200-203 | replaces the description |
| `MethodSpecs.MethodSpecBuilder.AddImport` | Sources/Spec/MethodSpec.swift:205-208 | adds the import to the declared imports |
| `MethodSpecs.MethodSpecBuilder.AddImports` | Sources/Spec/MethodSpec.swift:210-213 | adds every given import to the declared imports |
| `MethodSpecs.Builder` | Sources/Spec/MethodSpec.swift:31-33 | the factory produces a fresh builder in the initial state |
| `Poet.AddDataToList` | Sources/Spec/MethodSpec.swift:142-145 | after adding, the element is in the list, the old list is a prefix, at most one element was added, and it is a plain append when the helper does not skip duplicates |
| `Poet.AddAllToListSpec` | Sources/Spec/MethodSpec.swift:162-165 | adding several elements keeps the old list as a prefix, contains every added element and nothing else new, and is plain concatenation when the helper does not skip duplicates |
| `FieldSpecs.InitializerAppendedVerbatim` | Sources/Spec/FieldSpec.swift:52-81 | under an Enum, Struct or Class parent the emitted line ends with `=` and the initializer's objects verbatim when there is an initializer, and ends right after the name (Enum) or the type (Struct, Class) when there is none |
| `FieldSpecs.EnumCaseLine` | Sources/Spec/FieldSpec.swift:52-64 | the line is `case`, the type-name-cleaned name, then `=` and the initializer only when there is one |
| `FieldSpecs.StoredPropertyLine` | Sources/Spec/FieldSpec.swift:66-81 | the line is the construct keyword, the camel-case-cleaned name, `:`, the type, then `=` and the initializer only when there is one |
| `FieldSpecs.ProtocolRequirementLine` | Sources/Spec/FieldSpec.swift:83-99 | the line is the keyword, the camel-case-cleaned name, `:`, the type, then `{get set}` iff the field's own construct is MutableField, and `{ get }` otherwise; five objects, so no initializer |
| `FieldSpecs.EmitField` | Sources/Spec/FieldSpec.swift:27-50 | appends exactly `FieldTokens(f)`: documentation, then the rule chosen by the parent; returns the same writer |
| `FieldSpecs.DocumentationFirst` | Sources/Spec/FieldSpec.swift:27-32 | documentation is the first token on every path; with no parent it is the only one; braces are balanced |
| `FieldSpecs.EnumFieldIsCase` | Sources/Spec/FieldSpec.swift:35-37 | under an Enum parent the rendering is documentation plus one `case` line; no modifiers token; the modifiers, type and construct of the field do not change it |
| `FieldSpecs.StoredPropertyField` | Sources/Spec/FieldSpec.swift:39-41 | under a Struct or Class parent the rendering is documentation, the modifiers, and one stored-property line; the name is camel-case cleaned |
| `FieldSpecs.ProtocolFieldIgnoresInitializer` | Sources/Spec/FieldSpec.swift:42-44 | under a Protocol parent the rendering is documentation, the modifiers, and one requirement line, and it does not depend on the initializer |
| `FieldSpecs.OtherParentEmitsDocumentationOnly` | Sources/Spec/FieldSpec.swift:34-47 | under any parent other than Enum, Struct, Class or Protocol, only documentation is emitted |
| `FieldSpecs.DefaultedConstruct` | Sources/Spec/FieldSpec.swift:118-121 | the builder's construct is Field or MutableField, and it is MutableField iff MutableField was explicitly passed |
| `FieldSpecs.FieldSpecBuilder.constructor` | Sources/Spec/FieldSpec.swift:118-122 | keeps the raw name and type; the construct is defaulted; nothing else is set; the builder is valid |
| `FieldSpecs.FieldSpecBuilder.Build` | Sources/Spec/FieldSpec.swift:16-21 | the built spec copies name, construct, modifiers, description, type, initializer and parent; its construct is Field or MutableField |
| `FieldSpecs.FieldSpecBuilder.AddInitializer` | Sources/Spec/FieldSpec.swift:133-136 | overwrites any earlier initializer; changes nothing else |
| `FieldSpecs.FieldSpecBuilder.AddParentType` | Sources/Spec/FieldSpec.swift:138-141 | overwrites any earlier parent; changes nothing else |
| `FieldSpecs.FieldSpecBuilder.AddModifier` | Sources/Spec/FieldSpec.swift:147-150 | adds the modifier to the set; returns the same builder |
| `FieldSpecs.FieldSpecBuilder.AddModifiers` | Sources/Spec/FieldSpec.swift:152-155 | adds every given modifier to the set |
| `FieldSpecs.FieldSpecBuilder.AddDescription` | Sources/Spec/FieldSpec.swift:157-160 | replaces the description |
| `FieldSpecs.Builder` | Sources/Spec/FieldSpec.swift:23-25 | the public factory passes no construct, so the builder's construct is Field |
| `FieldSpecs.BuiltProtocolAccessor` | Sources/Spec/FieldSpec.swift:92-96 | a field from a builder gets `{get set}` in a protocol exactly when the builder was given MutableField |

## Left out

- The file-packaging step is not part of this model: the header comment, the generation date and the file contents. The `TopLevelClass` file test covers that step, and `ClassSpec` is not modelled either.
- `PoetUtil` is not part of this model. `cleanCammelCaseString` and `cleanTypeName` are arbitrary total functions supplied in a `PoetUtil` value. Whether `addDataToList` skips duplicates is a flag of that value, and every contract holds either way.
- `CodeWriter` is not part of this model. Each call on it is one abstract token. Spacing between literals, indentation strings, line terminators, the doc-comment format and the canonical order of modifiers are not modelled.
- The internals of `TypeName.collectImports` and `ParameterSpec.emit` are not modelled. A type or parameter carries its collected import set as a given value. A parameter renders as one opaque token.
- `PoetSpecImpl` and `SpecBuilderImpl` (the base spec and base builder) are not part of this model. Their state is modelled with these assumptions:
  - the builder starts with no modifiers, no description and no imports;
  - `addModifier(s)` and `addImport(s)` insert into a set;
  - `addDescription` replaces the description.
- `FieldSpec.collectImports` is inherited from the base spec, which is not shown, so it is not modelled. The field initialiser passes no imports.
- After build, `parentType` is a public `var` on both specs. Swift reference identity and later mutation through that var are not modelled. Adopting a spec is modelled as the updated value `m.(parentType := ...)`.
- `MethodBracesBalanced` covers only the BeginStatement and EndStatement calls the method makes itself. A body is one opaque block, and the emit-type tags of a `CodeBlock` (`.Literal`, `.BeginStatement`, and the rest) are not modelled, so a body's own statement braces cannot be represented.
- `emit`'s `asFile` argument is unused by `MethodSpec`, so it is dropped.
- The commented-out `defaultValue` and `addStatement` code is not modelled.
- The Swift `Construct` and `Modifier` enums have more cases than are listed here. Only the cases the rendering rules distinguish are modelled, plus a few examples.
