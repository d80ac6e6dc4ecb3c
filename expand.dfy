/**
 * The transformation engine of the `before`/`after` attribute macros
 * (`src/expand.rs`): the attribute-argument parser `FnArgs::new`, its
 * aborting wrapper `parse_args`, and the function rewriter `get_altered_fn`.
 */
module Expand {
  import opened Wrappers
  import opened Syntax

  // ---------------------------------------------------------------------------
  // Argument parser
  // ---------------------------------------------------------------------------

  /** The parsed macro arguments (`FnArgs`): the optional `call` expression. */
  datatype FnArgs = FnArgs(call: Option<Expr>)

  /**
   * syn's parser for the contents of a string literal (`LitStr::parse`):
   * an expression, or the parser's error message. Its grammar is not modelled.
   */
  type ExprParser = string -> Result<Expr, string>

  /** The errors `FnArgs::new` reports, each carrying the syntax it is spanned on. */
  datatype ArgError =
    | UnsupportedValue(lit: string)              // a bare string literal
    | CantParseCall(lit: string, cause: string)  // the `call` string, and syn's message
    | UnknownIdentifier(path: Path)              // a key other than `call`
    | UnknownAttribute(arg: NestedMeta)          // any other argument form

  /** The text `CantParseCall` puts in front of syn's own message. */
  const CantParsePrefix: string := "Can't parse call value: "

  /**
   * The diagnostic text of each error: its first character tells a parse
   * failure from the other three, and syn's message survives unchanged.
   */
  function Message(e: ArgError): (m: string)
    ensures |m| > 0 && (m[0] == 'C' <==> e.CantParseCall?)
    ensures e.CantParseCall? ==> |m| >= |CantParsePrefix| && m[|CantParsePrefix|..] == e.cause
  {
    match e
    case UnsupportedValue(_) => "Unsupported value"
    case CantParseCall(_, cause) => CantParsePrefix + cause
    case UnknownIdentifier(_) => "Unknown identifier. Available: 'call'"
    case UnknownAttribute(_) => "Unknown attribute."
  }

  /** A `call = "<string>"` entry: the only form the parser can accept. */
  predicate IsCallEntry(arg: NestedMeta) {
    arg.MetaItem? && arg.meta.NameValue? && IsIdent(arg.meta.path, "call") && arg.meta.lit.Str?
  }

  /** The verdict on one argument: accepted as a `call` expression, or rejected. */
  datatype Verdict = Accept(expr: Expr) | Reject(error: ArgError)

  /** How one pass of the argument loop treats `arg`. */
  function Classify(arg: NestedMeta, parse: ExprParser): (v: Verdict)
    ensures v.Accept? <==> IsCallEntry(arg) && parse(arg.meta.lit.value).Ok?
    ensures v.Accept? ==> v.expr == parse(arg.meta.lit.value).value
  {
    match arg
    case LitItem(Str(s)) => Reject(UnsupportedValue(s))
    case MetaItem(NameValue(path, Str(s))) =>
      if IsIdent(path, "call") then
        match parse(s)
        case Ok(e) => Accept(e)
        case Err(cause) => Reject(CantParseCall(s, cause))
      else
        Reject(UnknownIdentifier(path))
    case _ => Reject(UnknownAttribute(arg))
  }

  /** Every argument in `args` is an accepted `call` entry. */
  predicate AllAccepted(args: seq<NestedMeta>, parse: ExprParser) {
    forall i :: 0 <= i < |args| ==> Classify(args[i], parse).Accept?
  }

  /**
   * The argument loop from left to right, with `call` the value the loop
   * variable holds so far: it stops at the first rejected argument.
   */
  function Scan(args: seq<NestedMeta>, call: Option<Expr>, parse: ExprParser): (r: Result<FnArgs, ArgError>)
    ensures r.Ok? && args == [] ==> r.value.call == call
    ensures r.Ok? && args != [] ==> r.value.call.Some?
    ensures r.Err? ==> args != []
    decreases |args|
  {
    if args == [] then Ok(FnArgs(call))
    else
      match Classify(args[0], parse)
      case Accept(e) => Scan(args[1..], Some(e), parse)
      case Reject(err) => Err(err)
  }

  /** What `FnArgs::new` returns for `args`: on success, `call` is unset exactly when there were no arguments. */
  function ParseFnArgs(args: seq<NestedMeta>, parse: ExprParser): (r: Result<FnArgs, ArgError>)
    ensures r.Ok? ==> (r.value.call.None? <==> args == [])
  {
    Scan(args, None, parse)
  }

  /**
   * `FnArgs::new`: the `for` loop over the arguments, overwriting `call` on
   * every accepted entry and returning at the first rejected one.
   */
  method New(args: seq<NestedMeta>, parse: ExprParser) returns (r: Result<FnArgs, ArgError>)
    ensures r == ParseFnArgs(args, parse)
  {
    var call: Option<Expr> := None;
    for i := 0 to |args|
      invariant Scan(args[i..], call, parse) == ParseFnArgs(args, parse)
    {
      assert args[i..][0] == args[i] && args[i..][1..] == args[i + 1..];
      var arg := args[i];
      match arg {
        case LitItem(Str(lit)) =>
          return Err(UnsupportedValue(lit));
        case MetaItem(NameValue(path, Str(litStr))) =>
          if IsIdent(path, "call") {
            match parse(litStr) {
              case Ok(e) =>
                call := Some(e);
              case Err(cause) =>
                return Err(CantParseCall(litStr, cause));
            }
          } else {
            return Err(UnknownIdentifier(path));
          }
        case _ =>
          return Err(UnknownAttribute(arg));
      }
    }
    assert args[|args|..] == [];
    r := Ok(FnArgs(call));
  }

  /**
   * The loop succeeds exactly when every argument is an accepted `call` entry,
   * and then `call` holds the expression of the LAST entry (each accepted entry
   * overwrites the one before), or stays as it was when there are none.
   */
  lemma {:induction false} ScanSucceeds(args: seq<NestedMeta>, call: Option<Expr>, parse: ExprParser)
    ensures Scan(args, call, parse).Ok? <==> AllAccepted(args, parse)
    ensures Scan(args, call, parse).Ok? ==>
      Scan(args, call, parse).value.call == if args == [] then call else Some(Classify(args[|args| - 1], parse).expr)
    decreases |args|
  {
    if args != [] {
      match Classify(args[0], parse)
      case Accept(e) =>
        ScanSucceeds(args[1..], Some(e), parse);
        assert AllAccepted(args, parse) <==> AllAccepted(args[1..], parse) by {
          if AllAccepted(args[1..], parse) {
            forall i | 0 <= i < |args| ensures Classify(args[i], parse).Accept? {
              if i > 0 { assert args[i] == args[1..][i - 1]; }
            }
          }
        }
      case Reject(_) =>
    }
  }

  /** The error is that of the first rejected argument, whatever follows it. */
  lemma {:induction false} ScanStopsAtFirstRejection(args: seq<NestedMeta>, call: Option<Expr>, parse: ExprParser, k: nat)
    requires k < |args|
    requires AllAccepted(args[..k], parse)
    requires Classify(args[k], parse).Reject?
    ensures Scan(args, call, parse) == Err(Classify(args[k], parse).error)
    decreases k
  {
    if k > 0 {
      assert args[..k][0] == args[0];
      var e := Classify(args[0], parse).expr;
      assert args[1..][..k - 1] == args[..k][1..];
      assert args[1..][k - 1] == args[k];
      ScanStopsAtFirstRejection(args[1..], Some(e), parse, k - 1);
    }
  }

  /** Conversely, every error the loop reports comes from a first rejected argument. */
  lemma {:induction false} ScanErrorIsFirstRejection(args: seq<NestedMeta>, call: Option<Expr>, parse: ExprParser)
    requires Scan(args, call, parse).Err?
    ensures exists k :: 0 <= k < |args| && AllAccepted(args[..k], parse)
                        && Classify(args[k], parse) == Reject(Scan(args, call, parse).error)
    decreases |args|
  {
    match Classify(args[0], parse)
    case Reject(err) =>
      assert AllAccepted(args[..0], parse);
    case Accept(e) =>
      ScanErrorIsFirstRejection(args[1..], Some(e), parse);
      var k :| 0 <= k < |args[1..]| && AllAccepted(args[1..][..k], parse)
                && Classify(args[1..][k], parse) == Reject(Scan(args[1..], Some(e), parse).error);
      assert args[1..][k] == args[k + 1];
      assert AllAccepted(args[..k + 1], parse) by {
        forall i | 0 <= i < k + 1 ensures Classify(args[i], parse).Accept? {
          if i > 0 { assert args[i] == args[1..][..k][i - 1]; }
        }
      }
  }

  /** `FnArgs::new` on no arguments succeeds and leaves `call` unset. */
  lemma EmptyArgsLeaveCallUnset(parse: ExprParser)
    ensures ParseFnArgs([], parse) == Ok(FnArgs(None))
  {
  }

  /**
   * With the arguments before `bad` all accepted, the form of `bad` alone
   * decides the error, and nothing after it is looked at.
   */
  lemma FirstRejectedArgument(pre: seq<NestedMeta>, bad: NestedMeta, post: seq<NestedMeta>, parse: ExprParser)
    requires AllAccepted(pre, parse)
    ensures bad.LitItem? && bad.lit.Str? ==>
      ParseFnArgs(pre + [bad] + post, parse) == Err(UnsupportedValue(bad.lit.value))
    ensures bad.MetaItem? && bad.meta.NameValue? && bad.meta.lit.Str? && IsIdent(bad.meta.path, "call")
            && parse(bad.meta.lit.value).Err? ==>
      ParseFnArgs(pre + [bad] + post, parse)
        == Err(CantParseCall(bad.meta.lit.value, parse(bad.meta.lit.value).error))
    ensures bad.MetaItem? && bad.meta.NameValue? && bad.meta.lit.Str? && !IsIdent(bad.meta.path, "call") ==>
      ParseFnArgs(pre + [bad] + post, parse) == Err(UnknownIdentifier(bad.meta.path))
    ensures !(bad.LitItem? && bad.lit.Str?) && !(bad.MetaItem? && bad.meta.NameValue? && bad.meta.lit.Str?) ==>
      ParseFnArgs(pre + [bad] + post, parse) == Err(UnknownAttribute(bad))
  {
    var args := pre + [bad] + post;
    assert args[..|pre|] == pre;
    assert args[|pre|] == bad;
    if Classify(bad, parse).Reject? {
      ScanStopsAtFirstRejection(args, None, parse, |pre|);
    }
  }

  /** Arguments after the first rejected one never change the result. */
  lemma LaterArgumentsIgnored(pre: seq<NestedMeta>, bad: NestedMeta, post1: seq<NestedMeta>, post2: seq<NestedMeta>,
                              parse: ExprParser)
    requires AllAccepted(pre, parse)
    requires Classify(bad, parse).Reject?
    ensures ParseFnArgs(pre + [bad] + post1, parse) == ParseFnArgs(pre + [bad] + post2, parse)
  {
    var a1, a2 := pre + [bad] + post1, pre + [bad] + post2;
    assert a1[..|pre|] == pre && a1[|pre|] == bad;
    assert a2[..|pre|] == pre && a2[|pre|] == bad;
    ScanStopsAtFirstRejection(a1, None, parse, |pre|);
    ScanStopsAtFirstRejection(a2, None, parse, |pre|);
  }

  /** The four rejections carry four different messages. */
  lemma MessagesDistinguishErrors(e1: ArgError, e2: ArgError)
    requires Message(e1) == Message(e2)
    ensures e1.UnsupportedValue? <==> e2.UnsupportedValue?
    ensures e1.CantParseCall? <==> e2.CantParseCall?
    ensures e1.UnknownIdentifier? <==> e2.UnknownIdentifier?
    ensures e1.UnknownAttribute? <==> e2.UnknownAttribute?
  {
  }

  // ---------------------------------------------------------------------------
  // parse_args
  // ---------------------------------------------------------------------------

  /** The outcome of `parse_args`: the parsed arguments, or a panic with its message. */
  datatype Outcome = Continue(args: FnArgs) | Abort(message: string)

  const AbortMessage: string := "Can't parse args"

  /** `parse_args`: `FnArgs::new`, panicking on any error. */
  function ParseArgs(args: seq<NestedMeta>, parse: ExprParser): (o: Outcome)
    ensures o.Continue? <==> AllAccepted(args, parse)
    ensures o.Continue? ==> ParseFnArgs(args, parse) == Ok(o.args)
    ensures o.Abort? ==> ParseFnArgs(args, parse).Err? && o.message == "Can't parse args"
  {
    ScanSucceeds(args, None, parse);
    match ParseFnArgs(args, parse)
    case Ok(a) => Continue(a)
    case Err(_) => Abort(AbortMessage)
  }

  // ---------------------------------------------------------------------------
  // Function rewriter
  // ---------------------------------------------------------------------------

  /** Which template the rewriter applies (`FnTemplate`). */
  datatype FnTemplate = After | Before

  /** The name the `Before` template binds the before-call's result to. */
  const BeforeBinding: string := "_before_values"

  /** The deferred diagnostic used when no `call` was given. */
  const MissingCallMessage: string := "Argument 'call' can't be parsed"

  /** The callee the template puts in front of `()`. */
  function ResolveCall(args: FnArgs): (c: Callee)
    ensures c.CompileError? <==> args.call.None?
    ensures c.Parsed? ==> c.expr == args.call.value
    ensures c.CompileError? ==> c.message == MissingCallMessage
  {
    match args.call
    case Some(e) => Parsed(e)
    case None => CompileError(MissingCallMessage)
  }

  /** The new body: the original block as one statement, with the call spliced before or after it. */
  function WrappedBody(block: Block, callee: Callee, template: FnTemplate): (b: Block)
    ensures |b.stmts| == 2
    ensures b.stmts[if template == Before then 1 else 0] == Nested(block)
    ensures UnwrapBody(b, template) == Some((block, callee))
  {
    match template
    case Before => Block([Let(BeforeBinding, callee), Nested(block)])
    case After => Block([Nested(block), Call(callee)])
  }

  /** Recovers the original block and the callee from a body the template produced. */
  function UnwrapBody(body: Block, template: FnTemplate): Option<(Block, Callee)> {
    var s := body.stmts;
    match template
    case Before =>
      if |s| == 2 && s[0].Let? && s[0].binding == BeforeBinding && s[1].Nested?
      then Some((s[1].block, s[0].init)) else None
    case After =>
      if |s| == 2 && s[0].Nested? && s[1].Call?
      then Some((s[0].block, s[1].callee)) else None
  }

  /** Wrapping and unwrapping are inverse to each other. */
  lemma WrapUnwrapRoundTrip(block: Block, callee: Callee, body: Block, template: FnTemplate)
    ensures UnwrapBody(WrappedBody(block, callee, template), template) == Some((block, callee))
    ensures UnwrapBody(body, template).Some? ==>
      WrappedBody(UnwrapBody(body, template).value.0, UnwrapBody(body, template).value.1, template) == body
  {
  }

  /**
   * `get_altered_fn` with the signature reassembled in full: every part of the
   * function except its body is kept, and the body is wrapped by the template.
   * This is the behaviour the rest of the model relies on.
   */
  function AlteredFn(f: ItemFn, args: FnArgs, template: FnTemplate): ItemFn {
    f.(block := WrappedBody(f.block, ResolveCall(args), template))
  }

  /**
   * Only the body changes, and from the new body the original block and the
   * injected callee can be read back.
   */
  lemma AlteredFnKeepsAllButBody(f: ItemFn, args: FnArgs, template: FnTemplate)
    ensures AlteredFn(f, args, template).attrs == f.attrs
    ensures AlteredFn(f, args, template).vis == f.vis
    ensures AlteredFn(f, args, template).sig == f.sig
    ensures UnwrapBody(AlteredFn(f, args, template).block, template) == Some((f.block, ResolveCall(args)))
  {
    WrapUnwrapRoundTrip(f.block, ResolveCall(args), f.block, template);
  }

  /**
   * The two templates: `Before` runs `let _before_values = call();` ahead of
   * the original block, `After` runs `call();` after it; the original block
   * stays one nested statement in both.
   */
  lemma TemplatePlacement(f: ItemFn, args: FnArgs, template: FnTemplate)
    ensures AlteredFnAsWritten(f, args, template).block == AlteredFn(f, args, template).block
    ensures var s := AlteredFn(f, args, template).block.stmts;
      && |s| == 2
      && (template == Before ==> s[0] == Let(BeforeBinding, ResolveCall(args)) && s[1] == Nested(f.block))
      && (template == After ==> s[0] == Nested(f.block) && s[1] == Call(ResolveCall(args)))
  {
  }

  /**
   * With the signature kept in full, different functions, or different
   * callees, never rewrite to the same output.
   */
  lemma AlteredFnInjective(f1: ItemFn, args1: FnArgs, f2: ItemFn, args2: FnArgs, template: FnTemplate)
    requires AlteredFn(f1, args1, template) == AlteredFn(f2, args2, template)
    ensures f1 == f2 && args1 == args2
  {
    AlteredFnKeepsAllButBody(f1, args1, template);
    AlteredFnKeepsAllButBody(f2, args2, template);
    assert ResolveCall(args1) == ResolveCall(args2);
  }

  /**
   * Without a `call` argument the rewriter still produces a function; the
   * injected call is the deferred "Argument 'call' can't be parsed" diagnostic.
   */
  lemma MissingCallIsDeferred(f: ItemFn, template: FnTemplate, parse: ExprParser)
    ensures ParseArgs([], parse) == Continue(FnArgs(None))
    ensures UnwrapBody(AlteredFn(f, FnArgs(None), template).block, template)
            == Some((f.block, CompileError("Argument 'call' can't be parsed")))
    ensures UnwrapBody(AlteredFnAsWritten(f, FnArgs(None), template).block, template)
            == Some((f.block, CompileError("Argument 'call' can't be parsed")))
  {
    EmptyArgsLeaveCallUnset(parse);
    AlteredFnKeepsAllButBody(f, FnArgs(None), template);
  }

  // ---------------------------------------------------------------------------
  // The signature as the template writes it out
  // ---------------------------------------------------------------------------

  /**
   * The signature that `#fn_vis #fn_async fn #fn_name #fn_generics(#fn_args)
   * #fn_output` re-creates: `const`, `unsafe` and `extern "abi"` are not
   * emitted, and printing `Generics` writes only its `<...>` parameters, not
   * its `where` clause.
   */
  function EmittedSignature(sig: Signature): (e: Signature)
    ensures e.asyncness == sig.asyncness && e.ident == sig.ident
    ensures e.generics.params == sig.generics.params
    ensures e.inputs == sig.inputs && e.output == sig.output
    ensures !e.constness && !e.unsafety && e.abi == None && e.generics.whereClause == None
  {
    Signature(false, sig.asyncness, false, None, sig.ident, Generics(sig.generics.params, None), sig.inputs, sig.output)
  }

  /**
   * `get_altered_fn` as written: attributes and visibility are kept, the
   * signature is re-emitted piecewise, and the body is the template's, from
   * which the original block and the callee can be read back.
   */
  function AlteredFnAsWritten(f: ItemFn, args: FnArgs, template: FnTemplate): (g: ItemFn)
    ensures g.attrs == f.attrs && g.vis == f.vis
    ensures g.sig == EmittedSignature(f.sig)
    ensures UnwrapBody(g.block, template) == Some((f.block, ResolveCall(args)))
  {
    ItemFn(f.attrs, f.vis, EmittedSignature(f.sig), WrappedBody(f.block, ResolveCall(args), template))
  }

  /** A signature with none of the parts the template leaves out. */
  predicate PlainSignature(sig: Signature) {
    !sig.constness && !sig.unsafety && sig.abi == None && sig.generics.whereClause == None
  }

  /**
   * The code as written agrees with the full reassembly exactly on plain
   * signatures; on any other it loses part of the signature.
   */
  lemma AsWrittenAgreesOnlyOnPlainSignatures(f: ItemFn, args: FnArgs, template: FnTemplate)
    ensures AlteredFnAsWritten(f, args, template) == AlteredFn(f, args, template) <==> PlainSignature(f.sig)
  {
    if PlainSignature(f.sig) {
      assert EmittedSignature(f.sig) == f.sig;
    }
  }

  /** `fn t<T>() where T: Default {}` loses its `where` clause. */
  lemma WhereClauseDropped()
    ensures var f := ItemFn([], Inherited,
                            Signature(false, false, false, None, "t",
                                      Generics([GenericParam("T")], Some(["T: Default"])), [], DefaultReturn),
                            Block([]));
      AlteredFnAsWritten(f, FnArgs(None), Before).sig.generics.whereClause == None
      && f.sig.generics.whereClause != None
  {
  }

  /**
   * The code as written keeps everything but the dropped signature parts
   * apart: equal outputs come from equal attributes, visibility, blocks and
   * arguments, and from signatures that differ at most in those parts.
   */
  lemma AsWrittenInjectiveUpToDroppedParts(f1: ItemFn, args1: FnArgs, f2: ItemFn, args2: FnArgs, template: FnTemplate)
    requires AlteredFnAsWritten(f1, args1, template) == AlteredFnAsWritten(f2, args2, template)
    ensures f1.attrs == f2.attrs && f1.vis == f2.vis && f1.block == f2.block && args1 == args2
    ensures EmittedSignature(f1.sig) == EmittedSignature(f2.sig)
    ensures PlainSignature(f1.sig) && PlainSignature(f2.sig) ==> f1 == f2
  {
    assert ResolveCall(args1) == ResolveCall(args2);
    if PlainSignature(f1.sig) && PlainSignature(f2.sig) {
      assert EmittedSignature(f1.sig) == f1.sig && EmittedSignature(f2.sig) == f2.sig;
    }
  }

  /** `fn t<T>() {}` and `fn t<T>() where T: Default {}` rewrite to the same function. */
  lemma AsWrittenMergesWhereClauses()
    ensures var g := Generics([GenericParam("T")], None);
      var f1 := ItemFn([], Inherited, Signature(false, false, false, None, "t", g, [], DefaultReturn), Block([]));
      var f2 := f1.(sig := f1.sig.(generics := g.(whereClause := Some(["T: Default"]))));
      f1 != f2 && AlteredFnAsWritten(f1, FnArgs(None), Before) == AlteredFnAsWritten(f2, FnArgs(None), Before)
  {
  }
}
