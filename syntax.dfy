/**
 * The fragment of the `syn` syntax tree that the macro reads and writes.
 * Only the structure that `src/expand.rs` inspects is spelled out; the rest of
 * Rust's grammar (types, patterns, the statements of a body) is kept as
 * opaque token text.
 */
module Syntax {
  import opened Wrappers

  /** A parsed Rust expression (`syn::Expr`); its grammar is not modelled. */
  type Expr(==)

  /** One segment of a path such as `call` or `std::mem`, with or without generic arguments. */
  datatype PathSegment = PathSegment(ident: string, hasArguments: bool)

  /** A path (`syn::Path`): an optional leading `::` and its segments. */
  datatype Path = Path(leadingColon: bool, segments: seq<PathSegment>)

  /**
   * `Path::is_ident`: the path is exactly the single identifier `name`,
   * with no leading `::` and no generic arguments.
   */
  predicate IsIdent(p: Path, name: string) {
    && !p.leadingColon
    && |p.segments| == 1
    && !p.segments[0].hasArguments
    && p.segments[0].ident == name
  }

  /** A literal (`syn::Lit`): a string literal, or any other kind of literal. */
  datatype Lit =
    | Str(value: string)
    | Int(digits: string)
    | Bool(flag: bool)
    | OtherLit(tokens: string)

  /** An attribute meta item (`syn::Meta`): `path`, `path(...)` or `path = lit`. */
  datatype Meta =
    | MetaPath(path: Path)
    | MetaList(path: Path, nested: seq<NestedMeta>)
    | NameValue(path: Path, lit: Lit)

  /** One attribute argument (`syn::NestedMeta`): a meta item or a bare literal. */
  datatype NestedMeta =
    | MetaItem(meta: Meta)
    | LitItem(lit: Lit)

  /** An outer attribute such as `#[test]`, kept as its tokens. */
  datatype Attribute = Attribute(tokens: string)

  /** Visibility (`syn::Visibility`). */
  datatype Visibility = Inherited | Public | Crate | Restricted(path: Path)

  /** A generic parameter such as `T: Clone` or `'a`, kept as its tokens. */
  datatype GenericParam = GenericParam(tokens: string)

  /** Generics (`syn::Generics`): the `<...>` parameters and an optional `where` clause. */
  datatype Generics = Generics(params: seq<GenericParam>, whereClause: Option<seq<string>>)

  /** One function parameter such as `x: u32`, kept as its tokens. */
  datatype FnArg = FnArg(tokens: string)

  /** The return type (`syn::ReturnType`): none, or `-> T`. */
  datatype ReturnType = DefaultReturn | ReturnsType(ty: string)

  /** A function signature (`syn::Signature`); a variadic `...` is not modelled. */
  datatype Signature = Signature(
    constness: bool,
    asyncness: bool,
    unsafety: bool,
    abi: Option<string>,
    ident: string,
    generics: Generics,
    inputs: seq<FnArg>,
    output: ReturnType)

  /**
   * What the macro puts in front of `()`: the parsed `call` expression, or the
   * `compile_error!` tokens of a deferred diagnostic.
   */
  datatype Callee =
    | Parsed(expr: Expr)
    | CompileError(message: string)

  /**
   * A statement. `Let(x, c)` is `let x = c();`, `Call(c)` is `c();`,
   * `Nested(b)` is the block `b` standing as one statement, and `Source`
   * is any statement of the user's own code.
   */
  datatype Stmt =
    | Let(binding: string, init: Callee)
    | Call(callee: Callee)
    | Nested(block: Block)
    | Source(tokens: string)

  /** A block `{ ... }` (`syn::Block`). */
  datatype Block = Block(stmts: seq<Stmt>)

  /** A free function with its outer attributes (`syn::ItemFn`). */
  datatype ItemFn = ItemFn(attrs: seq<Attribute>, vis: Visibility, sig: Signature, block: Block)
}
