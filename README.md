# test-macros: the `before`/`after` transformation engine in Dafny

`test-macros` provides two attribute macros, `#[before(call = "f")]` and
`#[after(call = "f")]`. Each one wraps the body of a function with a call to `f`.
`before` binds the call's result to `_before_values` ahead of the original body.
`after` runs the call once the original body has finished.
This project models the engine in `src/expand.rs`. The engine has two parts:

- **Argument parser** (`FnArgs::new`, `parse_args`). It walks the attribute
  arguments from left to right. The only accepted form is `call = "<string>"`,
  and the string is re-parsed as an expression. The parser stops at the first
  rejected argument. If `call` appears more than once, the last value wins.
  `parse_args` panics on any error.
- **Function rewriter** (`get_altered_fn`). It takes the function apart and
  puts it back together. The original block becomes one nested statement, and
  the call is spliced in before it (`let _before_values = call();`) or after it
  (`call();`). When no `call` was given, the call is replaced by a
  `compile_error!` sentinel with the message "Argument 'call' can't be parsed",
  so the rewriter itself never fails.

Files:

- `wrappers.dfy`: `Option` and `Result`.
- `syntax.dfy`: the part of syn's syntax tree the engine reads and writes.
  This covers paths, literals, meta items, visibility, signature, statements and
  blocks. Anything the engine does not look into is kept as token text. The
  expression type `Expr` is abstract.
- `expand.dfy`: the engine.
  - syn's `LitStr::parse` is passed in as a function `parse: string -> Result<Expr, string>`.
    On failure it returns syn's error message.
  - `FnArgs::new` is the imperative method `New`, whose loop is proved equal to
    the recursive specification `Scan`/`ParseFnArgs`.
  - `parse_args` is `ParseArgs`, and its panic is the `Abort` outcome.
  - `get_altered_fn` as written is `AlteredFnAsWritten`. It re-emits the
    signature piece by piece and so loses some of its parts (see Findings).
    `AlteredFn` is the corrected rewriter, which keeps the whole signature.
    Both build the same body.

The crate's own documentation shows `#[after("cleanup_db")]` (src/lib.rs:21).
The code rejects that bare-string form with "Unsupported value"
(src/expand.rs:25-27), and the model follows the code.

## Model

| member | source | states |
|---|---|---|
| `Expand.Message` | src/expand.rs:26-46 | The first character of a diagnostic tells a failed `call` parse from the other three errors, and syn's own message is carried unchanged after "Can't parse call value: " |
| `Expand.Classify` | src/expand.rs:23-48 | An argument is accepted exactly when it is `call = "<s>"` with `call` a plain identifier and `s` parseable, and then it yields the parsed expression |
| `Expand.New` | src/expand.rs:19-54 | The argument loop, with `call` overwritten on each accepted entry and an early return on the first rejected one, computes exactly `ParseFnArgs` |
| `Expand.Scan` | src/expand.rs:20-49 | The loop that `call` is threaded through. On success `call` is unchanged for an empty rest and set otherwise. An error needs at least one argument |
| `Expand.ParseFnArgs` | src/expand.rs:19-54 | On success `call` is `None` exactly when the argument list was empty |
| `Expand.ScanSucceeds` | src/expand.rs:20-53 | Parsing succeeds if and only if every argument is an accepted `call` entry. The resulting `call` is that of the last argument, or unchanged when there are none |
| `Expand.EmptyArgsLeaveCallUnset` | src/expand.rs:20-53 | An empty argument list parses successfully with `call = None` |
| `Expand.ScanStopsAtFirstRejection` | src/expand.rs:22-49 | If every argument before position k is accepted and argument k is rejected, the result is argument k's error, whatever comes after it |
| `Expand.ScanErrorIsFirstRejection` | src/expand.rs:22-49 | Every reported error is the error of some argument that all earlier arguments were accepted before |
| `Expand.FirstRejectedArgument` | src/expand.rs:25-47 | The form of the first rejected argument decides the error: a bare string gives UnsupportedValue, an unparseable `call` string gives CantParseCall with syn's message, another key with a string value gives UnknownIdentifier, and anything else gives UnknownAttribute (non-string values and path or list metas included) |
| `Expand.LaterArgumentsIgnored` | src/expand.rs:22-49 | Arguments after the first rejected one never change the result |
| `Expand.MessagesDistinguishErrors` | src/expand.rs:26-46 | Equal diagnostic messages imply the same error kind, so the four rejections are distinct |
| `Expand.ParseArgs` | src/expand.rs:58-63 | `parse_args` continues with exactly the config `FnArgs::new` produced when that succeeds, which happens exactly when all arguments are accepted. Otherwise it aborts with "Can't parse args" |
| `Expand.ResolveCall` | src/expand.rs:84-93 | The callee is the parsed `call` expression when present. Otherwise it is the compile-error sentinel "Argument 'call' can't be parsed" |
| `Expand.WrappedBody` | src/expand.rs:95-118 | The new body has two statements. The original block is one of them: the last under `Before`, the first under `After`. The block and the callee can be read back from it |
| `Expand.WrapUnwrapRoundTrip` | src/expand.rs:95-118 | Wrapping a block by a template and reading the block and callee back are inverse operations in both directions |
| `Expand.AlteredFnAsWritten` | src/expand.rs:65-119 | `get_altered_fn` as written keeps attributes and visibility, re-emits the signature as `EmittedSignature`, and wraps the body so that the original block and the injected callee can be read back |
| `Expand.AsWrittenInjectiveUpToDroppedParts` | src/expand.rs:65-119 | Equal outputs of `get_altered_fn` as written come from equal attributes, visibility, blocks and `call` arguments, and from signatures that differ at most in the parts it drops. With plain signatures on both sides, the inputs are equal |
| `Expand.AsWrittenMergesWhereClauses` | src/expand.rs:99 | `fn t<T>() {}` and `fn t<T>() where T: Default {}` give the same output in the code as written |
| `Expand.AlteredFnKeepsAllButBody` | src/expand.rs:65-119 | The corrected `AlteredFn` keeps the original attributes, visibility and the whole signature. The original block and the injected callee can be recovered from its body |
| `Expand.TemplatePlacement` | src/expand.rs:95-118 | The code as written and the corrected version build the same body. `Before` gives the body `[let _before_values = call(); {original}]`. `After` gives `[{original}; call();]` |
| `Expand.AlteredFnInjective` | src/expand.rs:65-119 | The corrected `AlteredFn` is injective: different functions, or different `call` arguments, never rewrite to the same output. The code as written is not (see `AsWrittenMergesWhereClauses`) |
| `Expand.MissingCallIsDeferred` | src/expand.rs:84-93 | With no arguments, parsing continues with `call = None`, and both the code as written and the corrected rewriter still return a function whose injected call is the "Argument 'call' can't be parsed" sentinel |
| `Expand.EmittedSignature` | src/expand.rs:98-101 | The re-emitted signature keeps asyncness, name, generic parameters, inputs and output. It has no `const`, `unsafe`, `extern` ABI or `where` clause |
| `Expand.AsWrittenAgreesOnlyOnPlainSignatures` | src/expand.rs:65-119 | The code as written produces the same function as the full reassembly exactly when the signature has none of `const`, `unsafe`, an ABI or a `where` clause |
| `Expand.WhereClauseDropped` | src/expand.rs:99 | `fn t<T>() where T: Default {}` loses its `where` clause in the code as written |

## Findings

| source | as written | input that shows it | evidently intended | confidence | as-written member | corrected member |
|---|---|---|---|---|---|---|
| src/expand.rs:99 | The signature is re-emitted piece by piece as `#fn_vis #fn_async fn #fn_name #fn_generics(#fn_args) #fn_output`. syn prints only the `<...>` parameters of `Generics`, so the `where` clause is lost, and `const`, `unsafe` and `extern "abi"` are never emitted | `#[before(call = "setup")] fn t<T>() where T: Default {}` comes out as `fn t<T>() { ... }` without its bound | Every part of the signature is kept and only the body changes | medium, not executed | `Expand.AlteredFnAsWritten` (shown by `Expand.WhereClauseDropped`, `Expand.AsWrittenMergesWhereClauses` and `Expand.AsWrittenAgreesOnlyOnPlainSignatures`) | `Expand.AlteredFn` (proved by `Expand.AlteredFnKeepsAllButBody` and `Expand.AlteredFnInjective`) |

## Left out

- The entry points in src/lib.rs (`before`, `after`, `apply_fn`) are not modelled. They convert token streams, and their only logic is picking `FnTemplate::Before` or `FnTemplate::After`.
- syn's expression grammar (`LitStr::parse`) and the text of its error messages are not modelled. The parser is a parameter of the model.
- `quote!` token emission and spans are not modelled. The output is an abstract syntax tree, and each error carries the syntax it is spanned on instead of a source position.
- The runtime meaning of the generated function is out of scope. That includes an early `return` skipping the after-call, the type of `_before_values`, and async execution. The integration tests in tests/integration.rs check this runtime meaning.
- Inner attributes (`#![...]`) at the top of the body are not modelled. syn collects them with the outer attributes.
- Expand.EmittedSignature: keeps the generic parameters in their written order. syn's printer writes lifetime parameters before the others, so the two orders differ only for lists that do not start with their lifetimes, which rustc rejects anyway.
- The callee is assumed to be a path such as `setup_db`. `#call()` splices the expression's tokens without parentheses, so `call = "a + b"` would produce `a + b()`, and the model does not show that regrouping.
- Variadic parameters (`...`) are not modelled, because they are only legal in foreign functions.
- Parsing being deterministic needs no lemma, because every Dafny function is deterministic.
